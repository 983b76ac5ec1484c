/** The multipart form body shared by the intake page (which fills it with
    `append`) and the cases route (which reads it with `get` and `getAll`):
    an ordered list of name/value entries in which a name may repeat. */
module FormData {
  import opened Common

  datatype Entry = Entry(name: string, value: string)

  type Form = seq<Entry>

  /** `formData.append(name, value)`: adds one entry at the end. */
  function Append(fd: Form, name: string, value: string): (r: Form)
    ensures |r| == |fd| + 1 && r[..|fd|] == fd && r[|fd|] == Entry(name, value)
  {
    fd + [Entry(name, value)]
  }

  /** `formData.get(name)`: the value of the first entry with that name, or
      `null` (None) when there is none. */
  function Get(fd: Form, name: string): (r: Option<string>)
  {
    if |fd| == 0 then None
    else if fd[0].name == name then Some(fd[0].value)
    else Get(fd[1..], name)
  }

  /** `formData.getAll(name)`: the values of all entries with that name, in
      order. */
  function GetAll(fd: Form, name: string): (r: seq<string>)
  {
    if |fd| == 0 then []
    else if fd[0].name == name then [fd[0].value] + GetAll(fd[1..], name)
    else GetAll(fd[1..], name)
  }

  /** `get` returns the first of the values `getAll` returns, and null exactly
      when `getAll` returns none. */
  lemma {:induction false} GetIsFirstOfGetAll(fd: Form, name: string)
    ensures Get(fd, name) == if GetAll(fd, name) == [] then None else Some(GetAll(fd, name)[0])
  {
    if |fd| > 0 && fd[0].name != name {
      GetIsFirstOfGetAll(fd[1..], name);
    }
  }

  /** Reading all values of a name from two forms laid end to end. */
  lemma {:induction false} GetAllConcat(a: Form, b: Form, name: string)
    ensures GetAll(a + b, name) == GetAll(a, name) + GetAll(b, name)
  {
    if |a| == 0 {
      assert a + b == b;
    } else {
      GetAllConcat(a[1..], b, name);
      assert (a + b)[1..] == a[1..] + b;
    }
  }

  /** `get` finds the first entry carrying the name. */
  lemma {:induction false} GetAt(fd: Form, name: string, k: nat)
    requires k < |fd| && fd[k].name == name
    requires forall j :: 0 <= j < k ==> fd[j].name != name
    ensures Get(fd, name) == Some(fd[k].value)
  {
    if k > 0 {
      GetAt(fd[1..], name, k - 1);
    }
  }

  /** `get` of a name no entry carries is null. */
  lemma {:induction false} GetAbsent(fd: Form, name: string)
    requires forall j :: 0 <= j < |fd| ==> fd[j].name != name
    ensures Get(fd, name) == None
  {
    if |fd| > 0 {
      GetAbsent(fd[1..], name);
    }
  }

  /** `getAll` of a name no entry carries is empty. */
  lemma {:induction false} GetAllAbsent(fd: Form, name: string)
    requires forall j :: 0 <= j < |fd| ==> fd[j].name != name
    ensures GetAll(fd, name) == []
  {
    if |fd| > 0 {
      GetAllAbsent(fd[1..], name);
    }
  }

  /** A name already present in the front part is read from there. */
  lemma {:induction false} GetConcatFront(a: Form, b: Form, name: string)
    requires Get(a, name).Some?
    ensures Get(a + b, name) == Get(a, name)
  {
    if a[0].name != name {
      GetConcatFront(a[1..], b, name);
      assert (a + b)[1..] == a[1..] + b;
    }
  }

  /** A name absent from the front part is read from the back part. */
  lemma {:induction false} GetConcatBack(a: Form, b: Form, name: string)
    requires Get(a, name).None?
    ensures Get(a + b, name) == Get(b, name)
  {
    if |a| == 0 {
      assert a + b == b;
    } else {
      GetConcatBack(a[1..], b, name);
      assert (a + b)[1..] == a[1..] + b;
    }
  }
}
