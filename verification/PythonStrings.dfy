/** The parts of Python's `str` that the models need. */
module PythonStrings {

  /** `str.isspace` */
  predicate IsSpace(c: char) {
    var n := c as int;
    || 9 <= n <= 13 || 28 <= n <= 32 || n == 0x85 || n == 0xA0 || n == 0x1680 || 0x2000 <= n <= 0x200A
    || n == 0x2028 || n == 0x2029 || n == 0x202F || n == 0x205F || n == 0x3000
  }

  const SPACES := "\t\n\U{B}\U{C}\r\U{1C}\U{1D}\U{1E}\U{1F} \U{85}\U{A0}\U{1680}\U{2000}\U{2001}\U{2002}\U{2003}"
    + "\U{2004}\U{2005}\U{2006}\U{2007}\U{2008}\U{2009}\U{200A}\U{2028}\U{2029}\U{202F}\U{205F}\U{3000}"

  /** White space is these twenty-nine characters and no other. */
  lemma SpacesAre(c: char)
    ensures IsSpace(c) <==> c in SPACES
  {
    forall i | 0 <= i < |SPACES| ensures IsSpace(SPACES[i]) {
    }
  }

  function StripLeft(s: string): string {
    if s != "" && IsSpace(s[0]) then StripLeft(s[1..]) else s
  }

  function StripRight(s: string): string {
    if s != "" && IsSpace(s[|s| - 1]) then StripRight(s[..|s| - 1]) else s
  }

  /** `str.strip` */
  function Strip(s: string): string {
    StripRight(StripLeft(s))
  }

  predicate EndsInText(s: string) {
    s != "" && !IsSpace(s[|s| - 1])
  }

  lemma {:induction false} StripRightEnds(s: string)
    ensures StripRight(s) == "" || EndsInText(StripRight(s))
    ensures EndsInText(s) ==> StripRight(s) == s
  {
    if s != "" && IsSpace(s[|s| - 1]) {
      StripRightEnds(s[..|s| - 1]);
    }
  }

  lemma {:induction false} StripLeftEnds(s: string)
    requires EndsInText(s)
    ensures EndsInText(StripLeft(s))
  {
    if IsSpace(s[0]) {
      StripLeftEnds(s[1..]);
    }
  }

  lemma StripEnds(s: string)
    ensures Strip(s) == "" || EndsInText(Strip(s))
    ensures EndsInText(s) ==> Strip(s) != ""
  {
    StripRightEnds(StripLeft(s));
    if EndsInText(s) {
      StripLeftEnds(s);
    }
  }

  ghost predicate AllSpace(s: string) {
    forall i :: 0 <= i < |s| ==> IsSpace(s[i])
  }

  lemma {:induction false} StripLeftIs(s: string) returns (left: string)
    ensures s == left + StripLeft(s) && AllSpace(left)
    ensures StripLeft(s) != "" ==> !IsSpace(StripLeft(s)[0])
  {
    if s != "" && IsSpace(s[0]) {
      left := StripLeftIs(s[1..]);
      left := [s[0]] + left;
    } else {
      left := "";
    }
  }

  lemma {:induction false} StripRightIs(s: string) returns (right: string)
    ensures s == StripRight(s) + right && AllSpace(right)
    ensures StripRight(s) != "" ==> StripRight(s)[0] == s[0]
  {
    if s != "" && IsSpace(s[|s| - 1]) {
      right := StripRightIs(s[..|s| - 1]);
      right := right + [s[|s| - 1]];
    } else {
      right := "";
    }
  }

  /** Stripping takes white space off both ends and nothing else, until both ends are text. */
  lemma StripIs(s: string) returns (left: string, right: string)
    ensures s == left + Strip(s) + right && AllSpace(left) && AllSpace(right)
    ensures Strip(s) != "" ==> !IsSpace(Strip(s)[0]) && EndsInText(Strip(s))
  {
    left := StripLeftIs(s);
    right := StripRightIs(StripLeft(s));
    StripRightEnds(StripLeft(s));
    assert left + (Strip(s) + right) == left + Strip(s) + right;
  }

  lemma StripIsEmptyIff(s: string)
    ensures Strip(s) == "" <==> AllSpace(s)
  {
    var left, right := StripIs(s);
    if Strip(s) != "" {
      assert s[|left|] == Strip(s)[0];
    }
  }

  lemma StripPlain(s: string)
    requires s != "" && !IsSpace(s[0]) && EndsInText(s)
    ensures Strip(s) == s
  {
    StripRightEnds(s);
  }
}
