/**
 * The handful of Python string operations the page script relies on:
 * `sub in s`, `s.upper()`, `s.replace(a, b)` for single characters, and
 * splitting text at its first line break (used to read back the texts the
 * program assembles with "\n").
 */
module Strings {
  import opened Options

  predicate NoNewline(s: string) {
    '\n' !in s
  }

  /** Every character is below U+0080. */
  predicate IsAscii(s: string) {
    forall i :: 0 <= i < |s| ==> s[i] as int < 128
  }

  /** `sub` occurs in `s` starting at index `i`. */
  ghost predicate OccursAt(s: string, sub: string, i: int) {
    0 <= i && i + |sub| <= |s| && s[i..i + |sub|] == sub
  }

  /**
   * Python's `sub in s`: a scan for `sub` at every start position. It
   * holds exactly when `sub` occurs somewhere in `s`.
   */
  function Contains(s: string, sub: string): (b: bool)
    ensures b <==> exists i :: OccursAt(s, sub, i)
    decreases |s|
  {
    if |sub| > |s| then
      assert forall i :: !OccursAt(s, sub, i);
      false
    else if sub <= s then
      assert OccursAt(s, sub, 0);
      true
    else
      var rest := Contains(s[1..], sub);
      assert rest <==> exists i :: OccursAt(s, sub, i) by {
        forall i | OccursAt(s, sub, i)
          ensures OccursAt(s[1..], sub, i - 1)
        {
          assert s[1..][i - 1..i - 1 + |sub|] == s[i..i + |sub|];
        }
        forall j | OccursAt(s[1..], sub, j)
          ensures OccursAt(s, sub, j + 1)
        {
          assert s[1..][j..j + |sub|] == s[j + 1..j + 1 + |sub|];
        }
      }
      rest
  }

  /** A substring holding a character the string lacks does not occur in it. */
  lemma MissingCharRulesOut(s: string, sub: string, c: char)
    requires c in sub && c !in s
    ensures !Contains(s, sub)
  {
    assert forall i :: OccursAt(s, sub, i) ==> c in s[i..i + |sub|];
  }

  /**
   * Python's `str.upper()` on one character, for every character whose
   * upper case is Latin-1 or which is Latin-1 itself: the letters a-z and
   * à-þ (except '÷') move to their capitals, 'µ' and 'ÿ' to the Greek and
   * Latin capitals outside Latin-1, 'ß' to "SS", the dotless 'ı' and the
   * long 'ſ' to 'I' and 'S', and the ligatures U+FB00-U+FB06 to their
   * letters. Every other character is kept.
   */
  function UpperOf(c: char): (r: string)
    ensures 1 <= |r| <= 3
  {
    if 'a' <= c <= 'z' || ('\U{00E0}' <= c <= '\U{00FE}' && c != '\U{00F7}') then [(c as int - 32) as char]
    else if c == '\U{00B5}' then "\U{039C}"
    else if c == '\U{00FF}' then "\U{0178}"
    else if c == '\U{00DF}' then "SS"
    else if c == '\U{0131}' then "I"
    else if c == '\U{017F}' then "S"
    else if c == '\U{FB00}' then "FF"
    else if c == '\U{FB01}' then "FI"
    else if c == '\U{FB02}' then "FL"
    else if c == '\U{FB03}' then "FFI"
    else if c == '\U{FB04}' then "FFL"
    else if c == '\U{FB05}' || c == '\U{FB06}' then "ST"
    else [c]
  }

  /** A character `upper()` changes. */
  predicate IsLower(c: char) {
    UpperOf(c) != [c]
  }

  /** The capitals `UpperOf` produces are left alone by it. */
  lemma UpperOfSettled(c: char)
    ensures forall i :: 0 <= i < |UpperOf(c)| ==> !IsLower(UpperOf(c)[i])
  {
  }

  /** Python's `s.upper()`, character by character; the result is at most three times as long. */
  function Upper(s: string): (r: string)
    ensures |s| <= |r| <= 3 * |s|
  {
    if s == [] then [] else UpperOf(s[0]) + Upper(s[1..])
  }

  /** Upper-casing a concatenation upper-cases each part. */
  lemma {:induction false} UpperConcat(a: string, b: string)
    ensures Upper(a + b) == Upper(a) + Upper(b)
    decreases |a|
  {
    if a != [] {
      assert (a + b)[0] == a[0];
      assert (a + b)[1..] == a[1..] + b;
      UpperConcat(a[1..], b);
    } else {
      assert a + b == b;
    }
  }

  /** Text without a character `upper()` changes is its own upper case. */
  lemma {:induction false} UpperOfCapitals(t: string)
    requires forall i :: 0 <= i < |t| ==> !IsLower(t[i])
    ensures Upper(t) == t
    decreases |t|
  {
    if t != [] {
      UpperOfCapitals(t[1..]);
      assert t == [t[0]] + t[1..];
    }
  }

  /** Upper-casing leaves no character `upper()` would change. */
  lemma {:induction false} UpperSettled(s: string)
    ensures forall i :: 0 <= i < |Upper(s)| ==> !IsLower(Upper(s)[i])
    decreases |s|
  {
    if s != [] {
      var head, tail := UpperOf(s[0]), Upper(s[1..]);
      assert Upper(s) == head + tail;
      UpperSettled(s[1..]);
      UpperOfSettled(s[0]);
      forall i | 0 <= i < |head + tail|
        ensures !IsLower((head + tail)[i])
      {
        if i < |head| {
          assert (head + tail)[i] == head[i];
        } else {
          assert (head + tail)[i] == tail[i - |head|];
        }
      }
    }
  }

  /** Upper-casing leaves no character `upper()` would change, so doing it twice changes nothing. */
  lemma UpperHasNoLower(s: string)
    ensures forall i :: 0 <= i < |Upper(s)| ==> !IsLower(Upper(s)[i])
    ensures Upper(Upper(s)) == Upper(s)
  {
    UpperSettled(s);
    UpperOfCapitals(Upper(s));
  }

  /** Upper-casing a one-character text. */
  lemma UpperOne(c: char)
    ensures Upper([c]) == UpperOf(c)
  {
    assert [c][1..] == [];
  }

  /** `upper()` on ASCII letters. */
  lemma UpperName()
    ensures Upper("Name") == "NAME"
  {
    UpperConcat("N", "ame"); UpperConcat("a", "me"); UpperConcat("m", "e");
    UpperOne('N'); UpperOne('a'); UpperOne('m'); UpperOne('e');
    assert "Name" == "N" + ("a" + ("m" + "e"));
  }

  /**
   * `upper()` on single letters: 'é' has a Latin-1 capital, the Turkish
   * dotless 'ı' lies outside Latin-1 but its capital 'I' does not, 'ÿ' and
   * 'µ' are Latin-1 but their capitals are not, and 'ß' becomes two letters.
   */
  lemma UpperLetters()
    ensures Upper("\U{00E9}") == "\U{00C9}" && Upper("\U{0131}") == "I"
    ensures Upper("\U{00FF}") == "\U{0178}" && Upper("\U{00B5}") == "\U{039C}"
    ensures Upper("\U{00DF}") == "SS"
  {
    UpperOne('\U{00E9}'); UpperOne('\U{0131}');
    UpperOne('\U{00FF}'); UpperOne('\U{00B5}'); UpperOne('\U{00DF}');
  }

  /** Python's `s.replace(from, to)` for one-character `from` and `to`. */
  function ReplaceChar(s: string, from: char, to: char): (r: string)
    ensures |r| == |s|
    ensures forall i :: 0 <= i < |s| ==> r[i] == (if s[i] == from then to else s[i])
  {
    if s == [] then [] else [if s[0] == from then to else s[0]] + ReplaceChar(s[1..], from, to)
  }

  /** Replacing `from` by `to` is undone by replacing `to` by `from` when `to` did not occur. */
  lemma ReplaceCharUndo(s: string, from: char, to: char)
    requires to !in s
    ensures ReplaceChar(ReplaceChar(s, from, to), to, from) == s
  {
    var t := ReplaceChar(ReplaceChar(s, from, to), to, from);
    assert forall i :: 0 <= i < |s| ==> t[i] == s[i];
  }

  /** The index of the first `c` in `s`. */
  function IndexOf(s: string, c: char): (r: Option<nat>)
    ensures r.Some? ==> r.value < |s| && s[r.value] == c && c !in s[..r.value]
    ensures r.None? ==> c !in s
  {
    if |s| == 0 then None
    else if s[0] == c then Some(0)
    else match IndexOf(s[1..], c)
      case None => None
      case Some(i) =>
        assert s[..i + 1] == [s[0]] + s[1..][..i];
        Some(i + 1)
  }

  /** Splits `s` at its first line break into the text before and the text after it. */
  function SplitAtNewline(s: string): (r: Option<(string, string)>)
    ensures r.Some? ==> s == r.value.0 + "\n" + r.value.1 && NoNewline(r.value.0)
    ensures r.None? ==> NoNewline(s)
  {
    match IndexOf(s, '\n')
    case None => None
    case Some(i) =>
      assert s == s[..i] + "\n" + s[i + 1..];
      Some((s[..i], s[i + 1..]))
  }

  /** A line without a break, joined to anything by "\n", splits back into the two parts. */
  lemma SplitAtNewlineJoin(a: string, b: string)
    requires NoNewline(a)
    ensures SplitAtNewline(a + "\n" + b) == Some((a, b))
  {
    var s := a + "\n" + b;
    assert s[|a|] == '\n';
    var r := SplitAtNewline(s);
    assert r.Some?;
    assert r.value.0 == a;
    assert r.value.1 == b;
  }

  /** The rest of `s` after the prefix `p`, if `s` starts with `p`. */
  function StripPrefix(s: string, p: string): (r: Option<string>)
    ensures r.Some? <==> p <= s
    ensures r.Some? ==> s == p + r.value
  {
    if p <= s then Some(s[|p|..]) else None
  }

  lemma StripPrefixJoin(p: string, s: string)
    ensures StripPrefix(p + s, p) == Some(s)
  {
    assert p <= p + s;
    assert (p + s)[|p|..] == s;
  }
}
