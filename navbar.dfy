/** The site navigation bar (components/common/Navbar.tsx): the links shown
    for the signed-in and signed-out states, the path each link leads to, and
    the menu and sign-in flags the handlers change. */
module Navbar {
  import opened Text

  /** The labels shown for the current sign-in state. */
  function NavLinks(isAuthenticated: bool): (r: seq<string>)
    ensures !isAuthenticated ==> r == ["About", "Services", "Contact"]
    ensures isAuthenticated ==> r == ["Dashboard", "New Case", "Ask AI"]
  {
    if !isAuthenticated then ["About", "Services", "Contact"]
    else ["Dashboard", "New Case", "Ask AI"]
  }

  /** The path a link leads to: '/' and the lower-cased label, in which the
      first space, and only the first, becomes '-'. */
  function Href(item: string): (r: string)
    ensures |r| == |item| + 1 && r[0] == '/'
  {
    "/" + ReplaceFirst(Lower(item), ' ', '-')
  }

  /** A label without a space leads to its lower-cased self. */
  lemma HrefOneWord(item: string)
    requires ' ' !in item
    ensures Href(item) == "/" + Lower(item)
  {
    LowerKeepsAbsence(item, ' ');
    ReplaceFirstAbsent(Lower(item), ' ', '-');
  }

  /** A label with a space leads to its lower-cased first word, '-', and the
      lower-cased rest, spaces in the rest kept. */
  lemma HrefWords(first: string, rest: string)
    requires ' ' !in first
    ensures Href(first + " " + rest) == "/" + Lower(first) + "-" + Lower(rest)
  {
    LowerConcat(first + " ", rest);
    LowerConcat(first, " ");
    assert Lower(" ") == " ";
    LowerKeepsAbsence(first, ' ');
    ReplaceFirstSplit(Lower(first), Lower(rest), ' ', '-');
  }

  /** "New Case" leads to "/new-case". */
  lemma NewCaseHref()
    ensures Href("New Case") == "/new-case"
  {
    HrefWords("New", "Case");
    LowerNew();
    LowerCase();
    assert "/" + "new" + "-" + "case" == "/new-case";
  }

  /** Only the first space is replaced: a label with two keeps the second. */
  lemma SecondSpaceKept()
    ensures Href("A B C") == "/a-b c"
  {
    HrefWords("A", "B C");
    LowerA();
    LowerBC();
    assert "/" + "a" + "-" + "b c" == "/a-b c";
  }

  lemma LowerNew()
    ensures Lower("New") == "new"
  {
    var l := Lower("New");
    assert l[0] == 'n';
    assert l[1] == 'e';
    assert l[2] == 'w';
  }

  lemma LowerCase()
    ensures Lower("Case") == "case"
  {
    var l := Lower("Case");
    assert l[0] == 'c';
    assert l[1] == 'a';
    assert l[2] == 's';
    assert l[3] == 'e';
  }

  lemma LowerA()
    ensures Lower("A") == "a"
  {
    var l := Lower("A");
    assert l[0] == 'a';
  }

  lemma LowerBC()
    ensures Lower("B C") == "b c"
  {
    var l := Lower("B C");
    assert l[0] == 'b';
    assert l[1] == ' ';
    assert l[2] == 'c';
  }

  /** The navigation bar's state. */
  class NavbarState {
    var isOpen: bool
    var isAuthenticated: bool

    /** Signed out, menu closed. */
    constructor ()
      ensures !isOpen && !isAuthenticated
      ensures Links() == ["About", "Services", "Contact"]
    {
      isOpen := false;
      isAuthenticated := false;
    }

    function Links(): seq<string>
      reads this
    {
      NavLinks(isAuthenticated)
    }

    /** `handleLogout`: the desktop logout button. */
    method Logout()
      modifies this`isAuthenticated
      ensures !isAuthenticated
      ensures Links() == NavLinks(false)
    {
      isAuthenticated := false;
    }

    /** The mobile menu button. */
    method ToggleMenu()
      modifies this`isOpen
      ensures isOpen == !old(isOpen)
    {
      isOpen := !isOpen;
    }

    /** Any link in the mobile menu: it closes the menu. */
    method MobileLinkClick()
      modifies this`isOpen
      ensures !isOpen
    {
      isOpen := false;
    }

    /** The mobile logout button: signs out and closes the menu. */
    method MobileLogout()
      modifies this
      ensures !isAuthenticated && !isOpen
    {
      Logout();
      MobileLinkClick();
    }
  }
}
