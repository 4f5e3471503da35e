/**
 * The string operations the bot applies to message text and scraped markup:
 * Python's `str.strip()`, `str.lower()`, `str.split()[0]` and
 * `str.replace("/", "")`.
 */
module Text {

  import opened Wrappers

  /** Python's `str.isspace` for one character: the characters `strip()` and `split()` remove. */
  predicate IsSpace(c: char) {
    || c == ' '
    || '\t' <= c <= '\r'
    || '\U{1C}' <= c <= '\U{1F}'
    || c == '\U{85}'
    || c == '\U{A0}'
    || c == '\U{1680}'
    || '\U{2000}' <= c <= '\U{200A}'
    || c == '\U{2028}'
    || c == '\U{2029}'
    || c == '\U{202F}'
    || c == '\U{205F}'
    || c == '\U{3000}'
  }

  /** True when `s` neither starts nor ends with whitespace. */
  predicate Trimmed(s: string) {
    s == [] || (!IsSpace(s[0]) && !IsSpace(s[|s| - 1]))
  }

  /** `s.lstrip()`: the suffix of `s` that remains after its leading whitespace. */
  function StripLeft(s: string): (r: string)
    ensures |r| <= |s| && r == s[|s| - |r|..]
    ensures forall i :: 0 <= i < |s| - |r| ==> IsSpace(s[i])
    ensures r == [] || !IsSpace(r[0])
    decreases |s|
  {
    if s != [] && IsSpace(s[0]) then StripLeft(s[1..]) else s
  }

  /** `s.rstrip()`: the prefix of `s` that remains after its trailing whitespace. */
  function StripRight(s: string): (r: string)
    ensures |r| <= |s| && r == s[..|r|]
    ensures forall i :: |r| <= i < |s| ==> IsSpace(s[i])
    ensures r == [] || !IsSpace(r[|r| - 1])
    decreases |s|
  {
    if s != [] && IsSpace(s[|s| - 1]) then StripRight(s[..|s| - 1]) else s
  }

  /**
   * `s.strip()`: the slice of `s` left once the whitespace at both ends is
   * gone; a string that is already trimmed comes back unchanged.
   */
  function Strip(s: string): (r: string)
    ensures Trimmed(r)
    ensures Lead(s) + |r| <= |s| && r == s[Lead(s)..Lead(s) + |r|]
    ensures forall i :: 0 <= i < Lead(s) ==> IsSpace(s[i])
    ensures forall i :: Lead(s) + |r| <= i < |s| ==> IsSpace(s[i])
    ensures Trimmed(s) ==> r == s
  {
    StripRight(StripLeft(s))
  }

  /** The number of whitespace characters `lstrip()` removes from the front of `s`. */
  function Lead(s: string): nat {
    |s| - |StripLeft(s)|
  }

  /** `c.lower()` for Latin capitals and the basic Cyrillic block (U+0400 to U+042F). */
  function LowerChar(c: char): char {
    if 'A' <= c <= 'Z' || '\U{0410}' <= c <= '\U{042F}' then (c as int + 32) as char
    else if '\U{0400}' <= c <= '\U{040F}' then (c as int + 80) as char
    else c
  }

  /** `s.lower()`, character by character. */
  function Lower(s: string): (r: string) {
    seq(|s|, i requires 0 <= i < |s| => LowerChar(s[i]))
  }

  /** What the bot matches against its command words: `text.strip().lower()`. */
  function Normalize(s: string): string {
    Lower(Strip(s))
  }

  /** `s.replace("/", "")`. */
  function RemoveSlashes(s: string): (r: string)
    ensures '/' !in r
    ensures '/' !in s ==> r == s
    ensures multiset(r) == multiset(s)['/' := 0]
  {
    if s == [] then []
    else
      assert s == [s[0]] + s[1..];
      (if s[0] == '/' then [] else [s[0]]) + RemoveSlashes(s[1..])
  }

  /** The longest prefix of `s` holding no whitespace. */
  function TakeWord(s: string): (r: string)
    ensures r <= s
    ensures forall i :: 0 <= i < |r| ==> !IsSpace(r[i])
    ensures |r| < |s| ==> IsSpace(s[|r|])
  {
    if s == [] || IsSpace(s[0]) then [] else [s[0]] + TakeWord(s[1..])
  }

  /**
   * `s.split()[0]`: the first whitespace-separated word of `s`, or None where
   * Python raises IndexError because `s` is blank.
   */
  function FirstWord(s: string): (r: Option<string>)
    ensures r.None? <==> forall i :: 0 <= i < |s| ==> IsSpace(s[i])
    ensures r.Some? ==> r.value != [] && forall i :: 0 <= i < |r.value| ==> !IsSpace(r.value[i])
    ensures r.Some? ==>
      var t := s[Lead(s)..];
      r.value <= t && (|r.value| < |t| ==> IsSpace(t[|r.value|]))
  {
    var t := StripLeft(s);
    if t == [] then None
    else
      assert t[0] == s[|s| - |t|];
      Some(TakeWord(t))
  }

  // ---- Properties ----

  /** Concatenation is associative. */
  lemma ConcatAssoc<T>(x: seq<T>, y: seq<T>, z: seq<T>)
    ensures x + (y + z) == (x + y) + z
  {
  }

  /** Removing slashes from a string that starts with `c` handles `c` first, then the rest. */
  lemma RemoveSlashesCons(c: char, s: string)
    ensures RemoveSlashes([c] + s) == (if c == '/' then [] else [c]) + RemoveSlashes(s)
  {
    assert ([c] + s)[1..] == s;
  }

  /** Removing slashes works piece by piece: every other character is kept, in order. */
  lemma {:induction false} RemoveSlashesConcat(a: string, b: string)
    ensures RemoveSlashes(a + b) == RemoveSlashes(a) + RemoveSlashes(b)
    decreases |a|
  {
    if a == [] {
      assert a + b == b;
    } else {
      var t := a[1..];
      assert a == [a[0]] + t;
      assert a + b == [a[0]] + (t + b);
      RemoveSlashesCons(a[0], t + b);
      RemoveSlashesCons(a[0], t);
      RemoveSlashesConcat(t, b);
      var k := if a[0] == '/' then [] else [a[0]];
      assert RemoveSlashes(a + b) == k + RemoveSlashes(t + b);
      assert RemoveSlashes(a) == k + RemoveSlashes(t);
      ConcatAssoc(k, RemoveSlashes(t), RemoveSlashes(b));
    }
  }

  /** One character: a slash is dropped, any other character kept. */
  lemma RemoveSlashesChar(c: char)
    ensures RemoveSlashes([c]) == if c == '/' then [] else [c]
  {
    assert [c][1..] == [];
  }

  /** Lowering never turns whitespace into something else, nor the reverse. */
  lemma LowerCharKeepsSpace(c: char)
    ensures IsSpace(LowerChar(c)) <==> IsSpace(c)
  {
  }

  /** Lowering a second time changes nothing. */
  lemma LowerCharIdempotent(c: char)
    ensures LowerChar(LowerChar(c)) == LowerChar(c)
  {
  }

  /** Lowering keeps a trimmed string trimmed. */
  lemma LowerKeepsTrimmed(s: string)
    requires Trimmed(s)
    ensures Trimmed(Lower(s))
  {
    if s != [] {
      LowerCharKeepsSpace(s[0]);
      LowerCharKeepsSpace(s[|s| - 1]);
    }
  }

  /** Normalized text is already stripped: `Strip` leaves it as it is. */
  lemma NormalizeIsStripped(s: string)
    ensures Trimmed(Normalize(s))
    ensures Strip(Normalize(s)) == Normalize(s)
  {
    LowerKeepsTrimmed(Strip(s));
  }

  /** Normalizing twice is normalizing once. */
  lemma NormalizeIdempotent(s: string)
    ensures Normalize(Normalize(s)) == Normalize(s)
  {
    var n := Normalize(s);
    NormalizeIsStripped(s);
    forall i | 0 <= i < |n| ensures Lower(n)[i] == n[i] {
      LowerCharIdempotent(Strip(s)[i]);
    }
  }
}
