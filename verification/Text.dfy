/** The text tests the source leans on. */
module Text {
  const NUL := 0 as char

  /** What `str.isspace` accepts and `str.strip` removes. */
  predicate IsSpace(c: char) {
    var x := c as int;
    || 0x09 <= x <= 0x0D || 0x1C <= x <= 0x20 || x == 0x85 || x == 0xA0 || x == 0x1680
    || 0x2000 <= x <= 0x200A || x == 0x2028 || x == 0x2029 || x == 0x202F || x == 0x205F || x == 0x3000
  }

  /** Nothing is left after stripping. */
  predicate Blank(text: string) {
    forall c | c in text :: IsSpace(c)
  }

  function StripLeft(s: string): string {
    if s != "" && IsSpace(s[0]) then StripLeft(s[1..]) else s
  }

  function StripRight(s: string): string {
    if s != "" && IsSpace(s[|s| - 1]) then StripRight(s[..|s| - 1]) else s
  }

  function Strip(s: string): string {
    StripRight(StripLeft(s))
  }

  /** A text is blank exactly when stripping leaves nothing. */
  lemma {:induction false} BlankMeansStripped(s: string)
    ensures Blank(s) <==> Strip(s) == ""
    ensures Blank(s) <==> StripLeft(s) == ""
    decreases |s|
  {
    if s != "" {
      assert s == [s[0]] + s[1..];
      if IsSpace(s[0]) {
        BlankMeansStripped(s[1..]);
      } else {
        NotBlank(s);
        StartStays(s);
      }
    }
  }

  /** Stripping the end never reaches a first character that is no white space. */
  lemma {:induction false} StartStays(s: string)
    requires s != "" && !IsSpace(s[0])
    ensures StripRight(s) != ""
    decreases |s|
  {
    if IsSpace(s[|s| - 1]) {
      StartStays(s[..|s| - 1]);
    }
  }

  /** A text is not blank as soon as its first character is no white space. */
  lemma NotBlank(text: string)
    requires text != "" && !IsSpace(text[0])
    ensures !Blank(text)
  {
    assert text[0] in text;
  }

  predicate StartsWith(s: string, prefix: string) {
    |s| >= |prefix| && s[..|prefix|] == prefix
  }

  predicate EndsWith(s: string, suffix: string) {
    |s| >= |suffix| && s[|s| - |suffix|..] == suffix
  }
}
