/** Foundation's `Scanner`, as far as the string decoders use it: a cursor
    over the text that optionally skips whitespace and newlines before every
    scan, `scanString(_:)` and `scanUpToString(_:)`. Characters are Unicode
    scalar values; grapheme clustering is not modelled. */
module Scanner {
  import opened Wrappers

  /** `CharacterSet.whitespaces`: tab and the space separators (category Zs). */
  predicate IsWhitespace(c: char) {
    || c == ' ' || c == '\t' || c == '\U{A0}' || c == '\U{1680}'
    || ('\U{2000}' <= c <= '\U{200A}') || c == '\U{202F}' || c == '\U{205F}' || c == '\U{3000}'
  }

  /** `CharacterSet.newlines`: U+000A to U+000D, NEL and the line and
      paragraph separators. */
  predicate IsNewline(c: char) {
    ('\n' <= c <= '\r') || c == '\U{85}' || c == '\U{2028}' || c == '\U{2029}'
  }

  /** `CharacterSet.whitespacesAndNewlines`, a scanner's default skip set. */
  predicate IsWhitespaceOrNewline(c: char) {
    IsWhitespace(c) || IsNewline(c)
  }

  /** The position after the skipped characters at `pos`; with skipping
      switched off (`charactersToBeSkipped = nil`) it is `pos` itself. */
  function SkipFrom(text: seq<char>, pos: nat, skips: bool): (p: nat)
    requires pos <= |text|
    ensures pos <= p <= |text|
    ensures !skips ==> p == pos
    decreases |text| - pos
  {
    if skips && pos < |text| && IsWhitespaceOrNewline(text[pos]) then SkipFrom(text, pos + 1, skips) else pos
  }

  /** Skipping passes over exactly the blank characters ahead of `pos`. */
  lemma {:induction false} SkipFromSkipsBlanks(text: seq<char>, pos: nat)
    requires pos <= |text|
    ensures forall i :: pos <= i < SkipFrom(text, pos, true) ==> IsWhitespaceOrNewline(text[i])
    ensures SkipFrom(text, pos, true) < |text| ==> !IsWhitespaceOrNewline(text[SkipFrom(text, pos, true)])
    decreases |text| - pos
  {
    if pos < |text| && IsWhitespaceOrNewline(text[pos]) {
      SkipFromSkipsBlanks(text, pos + 1);
    }
  }

  /** `lit` occurs in `text` at `pos`. */
  predicate OccursAt(text: seq<char>, pos: nat, lit: seq<char>) {
    pos + |lit| <= |text| && text[pos..pos + |lit|] == lit
  }

  /** The first position at or after `from` where `lit` occurs, or the end of
      the text when there is none. */
  function FindFrom(text: seq<char>, lit: seq<char>, from: nat): (j: nat)
    requires from <= |text|
    ensures from <= j <= |text|
    ensures j < |text| ==> OccursAt(text, j, lit)
    decreases |text| - from
  {
    if from == |text| then from
    else if OccursAt(text, from, lit) then from
    else FindFrom(text, lit, from + 1)
  }

  /** `FindFrom` finds the first occurrence: there is none before it. */
  lemma {:induction false} FindFromIsFirst(text: seq<char>, lit: seq<char>, from: nat, i: nat)
    requires from <= |text| && from <= i < FindFrom(text, lit, from)
    ensures !OccursAt(text, i, lit)
    decreases |text| - from
  {
    if i > from {
      FindFromIsFirst(text, lit, from + 1, i);
    }
  }

  /** A one-character literal occurs exactly where that character is. */
  lemma OccursAtChar(text: seq<char>, pos: nat, c: char)
    requires pos < |text|
    ensures OccursAt(text, pos, [c]) <==> text[pos] == c
  {
    assert text[pos..pos + 1] == [text[pos]];
  }

  /** Positions that cannot start `lit` are passed over. */
  lemma {:induction false} FindFromPast(text: seq<char>, lit: seq<char>, from: nat, m: nat)
    requires from <= m <= |text| && |lit| > 0
    requires forall i :: from <= i < m ==> text[i] != lit[0]
    ensures FindFrom(text, lit, from) == FindFrom(text, lit, m)
    decreases m - from
  {
    if from < m {
      assert text[from] != lit[0];
      FindFromPast(text, lit, from + 1, m);
    }
  }

  /** A one-character literal is not found exactly when it does not occur. */
  lemma FindCharAbsent(text: seq<char>, c: char, from: nat)
    requires from <= |text|
    ensures FindFrom(text, [c], from) == |text| <==> forall i :: from <= i < |text| ==> text[i] != c
  {
    if FindFrom(text, [c], from) == |text| {
      forall i | from <= i < |text|
        ensures text[i] != c
      {
        FindFromIsFirst(text, [c], from, i);
        assert text[i..i + 1] == [text[i]];
      }
    } else {
      assert text[FindFrom(text, [c], from)] == c by {
        var j := FindFrom(text, [c], from);
        assert text[j..j + 1][0] == c;
      }
    }
  }

  /** Text appended after an occurrence does not change where it is found. */
  lemma {:induction false} FindFromExtend(text: seq<char>, more: seq<char>, lit: seq<char>, from: nat)
    requires from <= |text| && FindFrom(text, lit, from) < |text|
    ensures FindFrom(text + more, lit, from) == FindFrom(text, lit, from)
    decreases |text| - from
  {
    var f := FindFrom(text, lit, from);
    if OccursAt(text, from, lit) {
      assert (text + more)[from..from + |lit|] == text[from..from + |lit|];
    } else {
      assert from < f && f + |lit| <= |text|;
      assert (text + more)[from..from + |lit|] == text[from..from + |lit|];
      FindFromExtend(text, more, lit, from + 1);
    }
  }

  class Scanner {
    const text: seq<char>
    var pos: nat
    /** `charactersToBeSkipped`: whitespace and newlines, or nothing. */
    var skipsCharacters: bool

    ghost predicate Valid()
      reads this
    {
      pos <= |text|
    }

    /** `Scanner(string:)`: at the start, skipping whitespace and newlines. */
    constructor(text: seq<char>)
      ensures Valid() && this.text == text && pos == 0 && skipsCharacters
    {
      this.text := text;
      pos := 0;
      skipsCharacters := true;
    }

    /** `charactersToBeSkipped = nil`. */
    method DisableSkipping()
      modifies this
      ensures pos == old(pos) && !skipsCharacters
    {
      skipsCharacters := false;
    }

    /** `scanString(lit)`: after skipping, consumes exactly `lit` if it comes
        next; otherwise fails and leaves the cursor where it was. */
    method ScanString(lit: seq<char>) returns (r: Option<seq<char>>)
      requires Valid()
      modifies this`pos
      ensures Valid()
      ensures var p := SkipFrom(text, old(pos), skipsCharacters);
        if OccursAt(text, p, lit) then r == Some(lit) && pos == p + |lit|
        else r == None && pos == old(pos)
    {
      var p := SkipFrom(text, pos, skipsCharacters);
      if OccursAt(text, p, lit) {
        r := Some(lit);
        pos := p + |lit|;
      } else {
        r := None;
      }
    }

    /** `scanUpToString(lit)`: after skipping, consumes everything before the
        next occurrence of `lit` (or to the end); yields nothing, and leaves
        the cursor where it was, when that is no character at all. */
    method ScanUpToString(lit: seq<char>) returns (r: Option<seq<char>>)
      requires Valid()
      modifies this`pos
      ensures Valid()
      ensures var p := SkipFrom(text, old(pos), skipsCharacters);
              var e := FindFrom(text, lit, p);
        if e == p then r == None && pos == old(pos)
        else r == Some(text[p..e]) && pos == e
    {
      var p := SkipFrom(text, pos, skipsCharacters);
      var e := FindFrom(text, lit, p);
      if e == p {
        r := None;
      } else {
        r := Some(text[p..e]);
        pos := e;
      }
    }
  }
}
