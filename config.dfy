/** Start-up check of the environment (lib/config.ts): every required key
    must have a non-empty value; the first one that does not aborts the check
    with an error naming it. */
module Config {
  import opened Common

  /** The error thrown for a missing key; it carries the key right after a
      fixed 39-character lead-in. */
  function MissingMessage(key: string): (m: string)
    ensures |m| > 39 + |key| && m[39..39 + |key|] == key
  {
    "Missing required environment variable: " + key + ". "
    + "Please check your .env file and ensure it is properly configured."
  }

  /** `process.env[key]` is unset or empty. */
  predicate Missing(env: map<string, string>, key: string)
  {
    key !in env || env[key] == ""
  }

  /** The outcome of the check: the filled record, or the thrown error. */
  datatype Outcome = Valid(record: map<string, string>) | Invalid(message: string)

  /** The index of the first required key that is missing, if any. */
  function FirstMissing(required: seq<string>, env: map<string, string>): (r: Option<nat>)
    ensures r.Some? ==> r.value < |required| && Missing(env, required[r.value])
    ensures r.Some? ==> forall k :: 0 <= k < r.value ==> !Missing(env, required[k])
    ensures r.None? ==> forall k :: 0 <= k < |required| ==> !Missing(env, required[k])
  {
    if |required| == 0 then None
    else if Missing(env, required[0]) then Some(0)
    else match FirstMissing(required[1..], env)
      case None => None
      case Some(i) => Some(i + 1)
  }

  /** `validateEnvironment`: the loop fills the record key by key and throws
      on the first missing key, so no partial record ever escapes. */
  method ValidateEnvironment(required: seq<string>, env: map<string, string>) returns (out: Outcome)
    ensures FirstMissing(required, env).Some? ==>
      out == Invalid(MissingMessage(required[FirstMissing(required, env).value]))
    ensures FirstMissing(required, env).None? ==>
      && out.Valid?
      && out.record.Keys == set k | k in required
      && forall k :: k in out.record ==> k in env && out.record[k] == env[k]
  {
    var record: map<string, string> := map[];
    for i := 0 to |required|
      invariant record.Keys == set k | k in required[..i]
      invariant forall k :: k in record ==> k in env && record[k] == env[k]
      invariant forall k :: 0 <= k < i ==> !Missing(env, required[k])
    {
      var key := required[i];
      if key !in env || env[key] == "" {
        return Invalid(MissingMessage(key));
      }
      record := record[key := env[key]];
      assert required[..i + 1] == required[..i] + [key];
    }
    assert required[..|required|] == required;
    return Valid(record);
  }

  /** An empty list of required keys yields an empty record. */
  method EmptyRequirement(env: map<string, string>) returns (out: Outcome)
    ensures out == Valid(map[])
  {
    out := ValidateEnvironment([], env);
  }
}
