/** The string codec (StringCodable.swift): `id(p1,p2)` and the escaped form
    `id(<<<p1>>>,<<<p2>>>)`, each with an encoder and a scanner-based decoder. */
module StringCodable {
  import opened Wrappers
  import opened Scanner

  datatype DecodingError = InvalidFormatError(context: string)

  /** The delimiters of one escaped parameter. */
  const OpenGroup: string := "<<<"
  const CloseGroup: string := ">>>"
  const Comma: string := ","
  /** What separates two escaped parameters: `>>>,<<<`. */
  const GroupSeparator: string := ">>>,<<<"

  const CantReadId: DecodingError := InvalidFormatError("Can't read id")
  const CantReadParameters: DecodingError := InvalidFormatError("Can't read parameters")

  /** A decoded value: its id and its parameters. */
  datatype Decoded = Decoded(id: string, params: seq<string>)

  // ---------------------------------------------------------------------
  // Strings

  /** `joined(separator:)`. */
  function Join(parts: seq<string>, sep: string): (r: string)
    ensures |parts| == 0 ==> r == ""
    ensures |parts| == 1 ==> r == parts[0]
    ensures |parts| >= 2 ==> |r| >= |sep|
  {
    if |parts| == 0 then "" else if |parts| == 1 then parts[0] else parts[0] + sep + Join(parts[1..], sep)
  }

  /** `params.map { $0 ?? "" }`. */
  function OrEmpty(params: seq<Option<string>>): (r: seq<string>)
    ensures |r| == |params|
    ensures forall i :: 0 <= i < |params| ==> r[i] == params[i].GetOr("")
  {
    seq(|params|, i requires 0 <= i < |params| => params[i].GetOr(""))
  }

  /** The position of the first `sep` in `s`, or `|s|`. */
  function IndexOf(s: string, sep: char): (i: nat)
    ensures i <= |s|
    ensures i < |s| ==> s[i] == sep
    ensures forall k :: 0 <= k < i ==> s[k] != sep
  {
    if |s| == 0 || s[0] == sep then 0 else 1 + IndexOf(s[1..], sep)
  }

  /** The pieces of `s` between occurrences of `sep`, empty ones included:
      joining them back with `sep` gives `s` (`JoinPieces`). */
  function Pieces(s: string, sep: char): (pieces: seq<string>)
    ensures |pieces| >= 1
    decreases |s|
  {
    var i := IndexOf(s, sep);
    if i == |s| then [s] else [s[..i]] + Pieces(s[i + 1..], sep)
  }

  lemma {:induction false} JoinPieces(s: string, sep: char)
    ensures Join(Pieces(s, sep), [sep]) == s
    decreases |s|
  {
    var i := IndexOf(s, sep);
    if i < |s| {
      var rest := Pieces(s[i + 1..], sep);
      assert Pieces(s, sep) == [s[..i]] + rest;
      assert (([s[..i]] + rest)[1..]) == rest;
      JoinPieces(s[i + 1..], sep);
      assert s == s[..i] + [sep] + s[i + 1..];
    }
  }

  /** `split(separator:)` with its default `omittingEmptySubsequences: true`. */
  function Split(s: string, sep: char): seq<string> {
    NonEmpty(Pieces(s, sep))
  }

  function NonEmpty(pieces: seq<string>): (r: seq<string>)
    ensures forall i :: 0 <= i < |r| ==> r[i] != "" && r[i] in pieces
    ensures |r| <= |pieces|
  {
    if |pieces| == 0 then []
    else if pieces[0] == "" then NonEmpty(pieces[1..])
    else [pieces[0]] + NonEmpty(pieces[1..])
  }

  /** `trimmingCharacters(in: .whitespaces)`. */
  function Trim(s: string): (r: string)
    ensures |r| <= |s|
    ensures r != "" ==> !IsWhitespace(r[0]) && !IsWhitespace(r[|r| - 1])
    ensures (s == "" || (!IsWhitespace(s[0]) && !IsWhitespace(s[|s| - 1]))) ==> r == s
  {
    TrimEnd(TrimStart(s))
  }

  function TrimStart(s: string): (r: string)
    ensures |r| <= |s| && r == s[|s| - |r|..]
    ensures r != "" ==> !IsWhitespace(r[0])
    ensures (s == "" || !IsWhitespace(s[0])) ==> r == s
  {
    if s != "" && IsWhitespace(s[0]) then TrimStart(s[1..]) else s
  }

  function TrimEnd(s: string): (r: string)
    ensures |r| <= |s| && r == s[..|r|]
    ensures r != "" ==> !IsWhitespace(r[|r| - 1])
    ensures (s == "" || !IsWhitespace(s[|s| - 1])) ==> r == s
  {
    if s != "" && IsWhitespace(s[|s| - 1]) then TrimEnd(s[..|s| - 1]) else s
  }

  function TrimAll(pieces: seq<string>): (r: seq<string>)
    ensures |r| == |pieces|
    ensures forall i :: 0 <= i < |pieces| ==> r[i] == Trim(pieces[i])
  {
    seq(|pieces|, i requires 0 <= i < |pieces| => Trim(pieces[i]))
  }

  // ---------------------------------------------------------------------
  // Encoders

  /** `encodedDefault(id:params:)`: `id(p1,p2,...)`, a missing parameter
      written as the empty string. */
  function EncodedDefault(id: string, params: seq<Option<string>>): (r: string)
    ensures |r| >= |id| + 2 && r[..|id|] == id && r[|id|] == '(' && r[|r| - 1] == ')'
    ensures |params| == 0 ==> r == id + "()"
  {
    id + "(" + Join(OrEmpty(params), ",") + ")"
  }

  /** `encodedStringWithAdditionalEscaping(id:params:)`: every parameter
      between `<<<` and `>>>`, separated by commas; when the joined text is
      empty (no parameter, or one that is missing or empty) just `id()`. */
  function EncodedWithAdditionalEscaping(id: string, params: seq<Option<string>>): (r: string)
    ensures r == id + "()" <==> |params| == 0 || (|params| == 1 && params[0].GetOr("") == "")
  {
    var joined := Join(OrEmpty(params), GroupSeparator);
    id + "(" + (if joined != "" then OpenGroup + joined + CloseGroup else "") + ")"
  }

  // ---------------------------------------------------------------------
  // Decoders, as functions of the input

  /** `decodeDefault`, with skipping off: the id runs to the first `(` and
      must not be empty, the parameter text runs to the next `)`, which must
      exist; it is split on commas, empty pieces dropped and the rest trimmed
      of whitespace. Anything after that `)` is ignored. */
  function DecodeDefault(s: string): (r: Result<Decoded, DecodingError>)
    ensures r.Ok? ==> var n := |r.value.id|; 0 < n < |s| && s[..n] == r.value.id && s[n] == '('
    ensures r.Err? ==> r.error == CantReadId || r.error == CantReadParameters
  {
    var j := FindFrom(s, "(", 0);
    if j == 0 || j == |s| then Err(CantReadId)
    else
      var k := FindFrom(s, ")", j + 1);
      if k == |s| then Err(CantReadParameters)
      else Ok(Decoded(s[..j], TrimAll(Split(s[j + 1..k], ','))))
  }

  /** `decodeWithAdditionalEscaping`, skipping whitespace and newlines before
      every scan: the id runs from the first non-blank character to the first
      `(` and must not be empty; then the `<<<...>>>` groups from there on. */
  function DecodeWithAdditionalEscaping(s: string): Result<Decoded, DecodingError> {
    var start := SkipFrom(s, 0, true);
    var j := FindFrom(s, "(", start);
    if j == start || j == |s| then Err(CantReadId)
    else Ok(Decoded(s[start..j], EscapedParams(s, j + 1)))
  }

  /** One round of the loop of `decodeWithAdditionalEscaping` from position
      `q`: the group `<<<p>>>` found there and the position after it and its
      optional comma, or nothing when no group opens, the group is empty, or
      it does not close. */
  function NextParam(s: string, q: nat): (r: Option<(string, nat)>)
    requires q <= |s|
    ensures r.Some? ==> q < r.value.1 <= |s|
  {
    var a := SkipFrom(s, q, true);
    if !OccursAt(s, a, OpenGroup) then None
    else
      var b := SkipFrom(s, a + |OpenGroup|, true);
      var e := FindFrom(s, CloseGroup, b);
      if e == b || e == |s| then None
      else Some((s[b..e], NextGroup(s, e)))
  }

  /** A round that finds a non-empty, closed group yields it. */
  lemma NextParamFound(s: string, q: nat, b: nat, e: nat)
    requires q <= |s| && OccursAt(s, SkipFrom(s, q, true), OpenGroup)
    requires b == SkipFrom(s, SkipFrom(s, q, true) + |OpenGroup|, true)
    requires e == FindFrom(s, CloseGroup, b) && e != b && e < |s|
    ensures e + |CloseGroup| <= |s|
    ensures NextParam(s, q) == Some((s[b..e], NextGroup(s, e)))
  {}

  /** Where the next group is looked for after the group closing at `e`:
      past the optional comma that follows it, otherwise right after `>>>`. */
  function NextGroup(s: string, e: nat): (r: nat)
    requires e + |CloseGroup| <= |s|
    ensures e + |CloseGroup| <= r <= |s|
  {
    var c := SkipFrom(s, e + |CloseGroup|, true);
    if OccursAt(s, c, Comma) then c + 1 else e + |CloseGroup|
  }

  /** The parameters the loop collects from position `q`, round by round
      until a round finds no group. */
  function EscapedParams(s: string, q: nat): seq<string>
    requires q <= |s|
    decreases |s| - q
  {
    match NextParam(s, q)
    case None => []
    case Some((param, next)) => [param] + EscapedParams(s, next)
  }

  /** Skipping stops at a delimiter that is not blank. */
  lemma AfterDelimiter(s: string, e: nat, lit: string)
    requires e <= |s| && |lit| > 0 && !IsWhitespaceOrNewline(lit[0])
    ensures OccursAt(s, e, lit) ==> SkipFrom(s, e, true) == e
  {
    if OccursAt(s, e, lit) {
      assert s[e] == lit[0];
    }
  }

  /** `decodeDefault` on a `Scanner`. */
  method DecodeDefaultScanning(s: string) returns (r: Result<Decoded, DecodingError>)
    ensures r == DecodeDefault(s)
  {
    var scanner := new Scanner(s);
    scanner.DisableSkipping();
    ghost var j := FindFrom(s, "(", 0);
    var id := scanner.ScanUpToString("(");
    if id.None? || id.value == "" {
      DecodeDefaultOutcome(s);
      return Err(CantReadId);
    }
    assert id.value == s[..j] && scanner.pos == j;
    var open := scanner.ScanString("(");
    if open.None? {
      DecodeDefaultOutcome(s);
      return Err(CantReadId);
    }
    assert scanner.pos == j + 1 && 0 < j < |s|;
    ghost var k := FindFrom(s, ")", j + 1);
    var paramsString := scanner.ScanUpToString(")");
    var body := paramsString.GetOr("");
    assert body == s[j + 1..k] && scanner.pos == k;
    var close := scanner.ScanString(")");
    if close.None? {
      DecodeDefaultOutcome(s);
      return Err(CantReadParameters);
    }
    DecodeDefaultOutcome(s);
    r := Ok(Decoded(id.value, TrimAll(Split(body, ','))));
  }

  /** The three outcomes of `decodeDefault`, by where its `(` and `)` are. */
  lemma DecodeDefaultOutcome(s: string)
    ensures var j := FindFrom(s, "(", 0);
      if j == 0 || j == |s| then DecodeDefault(s) == Err(CantReadId)
      else var k := FindFrom(s, ")", j + 1);
        if k == |s| then DecodeDefault(s) == Err(CantReadParameters)
        else DecodeDefault(s) == Ok(Decoded(s[..j], TrimAll(Split(s[j + 1..k], ','))))
  {
  }

  /** `decodeWithAdditionalEscaping` on a `Scanner`. */
  method DecodeWithAdditionalEscapingScanning(s: string) returns (r: Result<Decoded, DecodingError>)
    ensures r == DecodeWithAdditionalEscaping(s)
  {
    var scanner := new Scanner(s);
    ghost var start := SkipFrom(s, 0, true);
    ghost var j := FindFrom(s, "(", start);
    var id := scanner.ScanUpToString("(");
    if id.None? || id.value == "" {
      DecodeEscapedNoId(s, start, j);
      return Err(CantReadId);
    }
    assert id.value == s[start..j] && scanner.pos == j;
    AfterDelimiter(s, j, "(");
    var open := scanner.ScanString("(");
    if open.None? {
      assert j == |s|;
      DecodeEscapedNoId(s, start, j);
      return Err(CantReadId);
    }
    assert scanner.pos == j + 1 && start < j < |s|;
    r := ScanParamsAfterId(scanner, start, j, id.value);
  }

  /** The rest of `decodeWithAdditionalEscaping`, once the id and its `(`
      are read: the groups, collected by the loop. */
  method ScanParamsAfterId(scanner: Scanner, ghost start: nat, ghost j: nat, id: string) returns (r: Result<Decoded, DecodingError>)
    requires scanner.Valid() && scanner.skipsCharacters
    requires start == SkipFrom(scanner.text, 0, true) && j == FindFrom(scanner.text, "(", start)
    requires start < j < |scanner.text| && scanner.pos == j + 1 && id == scanner.text[start..j]
    modifies scanner
    ensures r == DecodeWithAdditionalEscaping(scanner.text)
  {
    var params := ScanEscapedParams(scanner, j + 1);
    DecodeEscapedFound(scanner.text, start, j);
    r := Ok(Decoded(id, params));
  }

  /** No id before the `(`, or no `(` at all: the escaped decoder fails. */
  lemma DecodeEscapedNoId(s: string, start: nat, j: nat)
    requires start == SkipFrom(s, 0, true) && j == FindFrom(s, "(", start) && (j == start || j == |s|)
    ensures DecodeWithAdditionalEscaping(s) == Err(CantReadId)
  {
  }

  /** The id read, the escaped decoder goes on with the groups after the `(`. */
  lemma DecodeEscapedFound(s: string, start: nat, j: nat)
    requires start == SkipFrom(s, 0, true) && j == FindFrom(s, "(", start) && start < j < |s|
    ensures DecodeWithAdditionalEscaping(s) == Ok(Decoded(s[start..j], EscapedParams(s, j + 1)))
  {
  }

  /** A round that finds no `<<<`, or a group that is empty or does not
      close, yields nothing. */
  lemma NextParamNotFound(s: string, q: nat)
    requires q <= |s|
    requires var a := SkipFrom(s, q, true);
      !OccursAt(s, a, OpenGroup) ||
      var b := SkipFrom(s, a + |OpenGroup|, true);
      var e := FindFrom(s, CloseGroup, b);
      e == b || e == |s|
    ensures NextParam(s, q).None?
  {
  }

  /** One round of the `while true` loop of `decodeWithAdditionalEscaping`. */
  method ScanGroup(scanner: Scanner) returns (param: Option<string>)
    requires scanner.Valid() && scanner.skipsCharacters
    modifies scanner
    ensures scanner.Valid() && scanner.skipsCharacters
    ensures var r := NextParam(scanner.text, old(scanner.pos));
      if r.Some? then param == Some(r.value.0) && scanner.pos == r.value.1 else param.None?
  {
    ghost var s := scanner.text;
    ghost var q := scanner.pos;
    ghost var a := SkipFrom(s, q, true);
    var opening := scanner.ScanString(OpenGroup);
    if opening.None? {
      NextParamNotFound(s, q);
      return None;
    }
    assert OccursAt(s, a, OpenGroup) && scanner.pos == a + |OpenGroup|;
    ghost var b := SkipFrom(s, a + |OpenGroup|, true);
    ghost var e := FindFrom(s, CloseGroup, b);
    param := scanner.ScanUpToString(CloseGroup);
    if param.None? {
      NextParamNotFound(s, q);
      return None;
    }
    assert param == Some(s[b..e]) && scanner.pos == e;
    var closed := ScanClose(scanner, e);
    if !closed {
      NextParamNotFound(s, q);
      return None;
    }
    NextParamFound(s, q, b, e);
  }

  /** The end of a round: `>>>`, which is there unless the text has run
      out, then the optional comma. */
  method ScanClose(scanner: Scanner, ghost e: nat) returns (closed: bool)
    requires scanner.Valid() && scanner.skipsCharacters && scanner.pos == e
    requires e < |scanner.text| ==> OccursAt(scanner.text, e, CloseGroup)
    modifies scanner
    ensures scanner.Valid() && scanner.skipsCharacters
    ensures closed <==> e < |scanner.text|
    ensures closed ==> e + |CloseGroup| <= |scanner.text| && scanner.pos == NextGroup(scanner.text, e)
  {
    AfterDelimiter(scanner.text, e, CloseGroup);
    var closing := scanner.ScanString(CloseGroup);
    if closing.None? {
      return false;
    }
    var comma := scanner.ScanString(Comma);
    closed := true;
  }

  /** The `while true` loop of `decodeWithAdditionalEscaping`, appending one
      parameter per round. */
  method ScanEscapedParams(scanner: Scanner, ghost from: nat) returns (params: seq<string>)
    requires scanner.Valid() && scanner.skipsCharacters && scanner.pos == from
    modifies scanner
    ensures scanner.Valid() && scanner.skipsCharacters
    ensures params == EscapedParams(scanner.text, from)
  {
    ghost var s := scanner.text;
    ghost var all := EscapedParams(s, scanner.pos);
    params := [];
    while true
      invariant scanner.Valid() && scanner.skipsCharacters
      invariant params + EscapedParams(s, scanner.pos) == all
      decreases |s| - scanner.pos
    {
      ghost var q := scanner.pos;
      var param := ScanGroup(scanner);
      if param.None? {
        break;
      }
      assert EscapedParams(s, q) == [param.value] + EscapedParams(s, scanner.pos);
      params := params + [param.value];
    }
  }

  // ---------------------------------------------------------------------
  // Properties of the default format

  /** `s` has no `c` in it. */
  predicate Free(s: string, c: char) {
    forall k :: 0 <= k < |s| ==> s[k] != c
  }

  /** Every parameter present. */
  function Somes(ps: seq<string>): (r: seq<Option<string>>)
    ensures |r| == |ps| && OrEmpty(r) == ps
  {
    seq(|ps|, i requires 0 <= i < |ps| => Some(ps[i]))
  }

  /** `decodeDefault` fails to read the id exactly when the input is empty,
      starts with `(`, or has no `(` at all. */
  lemma DecodeDefaultCantReadId(s: string)
    ensures DecodeDefault(s) == Err(CantReadId) <==> s == "" || s[0] == '(' || Free(s, '(')
  {
    FindCharAbsent(s, '(', 0);
    if s != "" && s[0] == '(' {
      assert OccursAt(s, 0, "(");
    }
    var j := FindFrom(s, "(", 0);
    if j < |s| {
      assert s[j..j + 1][0] == '(';
    }
  }

  /** The first `(` of `s` is at `j`, after a non-empty id. */
  predicate FirstOpenAt(s: string, j: nat) {
    0 < j < |s| && s[j] == '(' && forall i :: 0 <= i < j ==> s[i] != '('
  }

  /** No `)` follows position `j`. */
  predicate NoCloseAfter(s: string, j: nat) {
    forall i :: j < i < |s| ==> s[i] != ')'
  }

  /** `decodeDefault` fails to read the parameters exactly when the id is
      read (a first `(` that is not at the start) but no `)` follows it. */
  lemma DecodeDefaultCantReadParameters(s: string)
    ensures DecodeDefault(s) == Err(CantReadParameters) <==> exists j :: FirstOpenAt(s, j) && NoCloseAfter(s, j)
  {
    var j := FindFrom(s, "(", 0);
    if DecodeDefault(s) == Err(CantReadParameters) {
      FirstOpenFound(s);
      FindCharAbsent(s, ')', j + 1);
      assert FirstOpenAt(s, j) && NoCloseAfter(s, j);
    }
    if exists m :: FirstOpenAt(s, m) && NoCloseAfter(s, m) {
      var m: nat :| FirstOpenAt(s, m) && NoCloseAfter(s, m);
      FindFromPast(s, "(", 0, m);
      assert OccursAt(s, m, "(");
      FindCharAbsent(s, ')', m + 1);
    }
  }

  /** Where `decodeDefault` finds a `(` past the start, it is the first one. */
  lemma FirstOpenFound(s: string)
    requires 0 < FindFrom(s, "(", 0) < |s|
    ensures FirstOpenAt(s, FindFrom(s, "(", 0))
  {
    var j := FindFrom(s, "(", 0);
    OccursAtChar(s, j, '(');
    forall i | 0 <= i < j
      ensures s[i] != '('
    {
      FindFromIsFirst(s, "(", 0, i);
      OccursAtChar(s, i, '(');
    }
  }

  /** Everything after the `)` that closes the parameters is ignored. */
  lemma DecodeDefaultIgnoresRest(s: string, t: string)
    requires DecodeDefault(s).Ok?
    ensures DecodeDefault(s + t) == DecodeDefault(s)
  {
    DecodeDefaultOutcome(s);
    DecodeDefaultOutcome(s + t);
    var j := FindFrom(s, "(", 0);
    FindFromExtend(s, t, "(", 0);
    var k := FindFrom(s, ")", j + 1);
    FindFromExtend(s, t, ")", j + 1);
    assert (s + t)[..j] == s[..j];
    assert (s + t)[j + 1..k] == s[j + 1..k];
  }

  /** On `id(body)`, with an id that has no `(` and a body without `)`,
      `decodeDefault` reads that id and the pieces of that body. */
  lemma DecodeDefaultOf(id: string, body: string)
    requires id != "" && Free(id, '(') && Free(body, ')')
    ensures DecodeDefault(id + "(" + body + ")") == Ok(Decoded(id, TrimAll(Split(body, ','))))
  {
    var s := id + "(" + body + ")";
    var j := |id|;
    var k := |id| + 1 + |body|;
    assert forall i :: 0 <= i < j ==> s[i] == id[i];
    FindFromPast(s, "(", 0, j);
    OccursAtChar(s, j, '(');
    assert forall i :: j + 1 <= i < k ==> s[i] == body[i - j - 1];
    FindFromPast(s, ")", j + 1, k);
    OccursAtChar(s, k, ')');
    assert s[..j] == id && s[j + 1..k] == body;
  }

  /** Pieces that are already trimmed are kept as they are. */
  lemma TrimAllKeeps(ps: seq<string>)
    requires forall i :: 0 <= i < |ps| ==> ps[i] == "" || (!IsWhitespace(ps[i][0]) && !IsWhitespace(ps[i][|ps[i]| - 1]))
    ensures TrimAll(ps) == ps
  {
  }

  /** Pieces that are all non-empty are kept as they are. */
  lemma {:induction false} NonEmptyKeeps(ps: seq<string>)
    requires forall i :: 0 <= i < |ps| ==> ps[i] != ""
    ensures NonEmpty(ps) == ps
  {
    if |ps| > 0 {
      NonEmptyKeeps(ps[1..]);
      assert ps == [ps[0]] + ps[1..];
    }
  }

  /** A parameter `decodeDefault` gives back unchanged: non-empty, without
      `,` or `)`, and without whitespace at either end. */
  predicate PlainParam(p: string) {
    p != "" && Free(p, ',') && Free(p, ')') && !IsWhitespace(p[0]) && !IsWhitespace(p[|p| - 1])
  }

  lemma FreeConcat(a: string, b: string, c: char)
    ensures Free(a + b, c) <==> Free(a, c) && Free(b, c)
  {
    if Free(a, c) && Free(b, c) {
      forall k | 0 <= k < |a + b|
        ensures (a + b)[k] != c
      {
        if k >= |a| {
          assert (a + b)[k] == b[k - |a|];
        }
      }
    }
    if Free(a + b, c) {
      assert forall k :: 0 <= k < |a| ==> a[k] == (a + b)[k];
      assert forall k :: 0 <= k < |b| ==> b[k] == (a + b)[|a| + k];
    }
  }

  /** Joining pieces that lack `c` with a separator that lacks it gives a
      text that lacks it. */
  lemma {:induction false} JoinFree(ps: seq<string>, sep: string, c: char)
    requires forall i :: 0 <= i < |ps| ==> Free(ps[i], c)
    requires Free(sep, c)
    ensures Free(Join(ps, sep), c)
  {
    if |ps| >= 2 {
      JoinFree(ps[1..], sep, c);
      FreeConcat(ps[0], sep, c);
      FreeConcat(ps[0] + sep, Join(ps[1..], sep), c);
    }
  }

  /** Splitting undoes joining, for pieces without the separator. */
  lemma {:induction false} PiecesOfJoin(ps: seq<string>, sep: char)
    requires |ps| >= 1 && forall i :: 0 <= i < |ps| ==> Free(ps[i], sep)
    ensures Pieces(Join(ps, [sep]), sep) == ps
  {
    var p := ps[0];
    if |ps| == 1 {
      assert IndexOf(p, sep) == |p|;
    } else {
      var rest := Join(ps[1..], [sep]);
      var s := p + [sep] + rest;
      assert Join(ps, [sep]) == s;
      assert forall k :: 0 <= k < |p| ==> s[k] == p[k];
      assert s[|p|] == sep;
      assert IndexOf(s, sep) == |p|;
      assert s[..|p|] == p && s[|p| + 1..] == rest;
      PiecesOfJoin(ps[1..], sep);
      assert ps == [p] + ps[1..];
    }
  }

  /** Decoding an encoding drops the nil and empty parameters and gives back
      the others, in order, when the id is non-empty without `(` and every
      present, non-empty parameter is plain. So `f(a,,b)` gives `a` and `b`,
      and `f()` gives no parameter. */
  lemma DefaultDecodeDropsEmpty(id: string, qs: seq<Option<string>>)
    requires id != "" && Free(id, '(')
    requires forall i :: 0 <= i < |qs| ==> qs[i].GetOr("") == "" || PlainParam(qs[i].value)
    ensures DecodeDefault(EncodedDefault(id, qs)) == Ok(Decoded(id, NonEmpty(OrEmpty(qs))))
  {
    var ps := OrEmpty(qs);
    assert forall i :: 0 <= i < |ps| ==> ps[i] == "" || PlainParam(ps[i]);
    var body := Join(ps, ",");
    JoinFree(ps, ",", ')');
    DecodeDefaultOf(id, body);
    assert Split(body, ',') == NonEmpty(ps) by {
      if |ps| == 0 {
        assert Pieces(body, ',') == [""];
      } else {
        PiecesOfJoin(ps, ',');
      }
    }
    NonEmptyTrimmed(ps);
  }

  /** The non-empty pieces of plain or empty pieces need no trimming. */
  lemma NonEmptyTrimmed(ps: seq<string>)
    requires forall i :: 0 <= i < |ps| ==> ps[i] == "" || PlainParam(ps[i])
    ensures TrimAll(NonEmpty(ps)) == NonEmpty(ps)
  {
    var kept := NonEmpty(ps);
    forall i | 0 <= i < |kept|
      ensures !IsWhitespace(kept[i][0]) && !IsWhitespace(kept[i][|kept[i]| - 1])
    {
      assert kept[i] in ps;
    }
    TrimAllKeeps(kept);
  }

  /** Round trip of the default format: the id and every parameter come back,
      when the id is non-empty without `(` and every parameter is present and
      plain. */
  lemma DefaultRoundTrip(id: string, ps: seq<string>)
    requires id != "" && Free(id, '(')
    requires forall i :: 0 <= i < |ps| ==> PlainParam(ps[i])
    ensures DecodeDefault(EncodedDefault(id, Somes(ps))) == Ok(Decoded(id, ps))
  {
    DefaultDecodeDropsEmpty(id, Somes(ps));
    NonEmptyKeeps(ps);
  }

  /** Between the parentheses of an encoding stand the parameters, nil ones
      as empty strings, separated by commas: splitting there gives them back
      when none contains a comma. */
  lemma EncodedDefaultPieces(id: string, params: seq<Option<string>>)
    requires |params| >= 1 && forall i :: 0 <= i < |params| ==> Free(params[i].GetOr(""), ',')
    ensures var r := EncodedDefault(id, params); Pieces(r[|id| + 1..|r| - 1], ',') == OrEmpty(params)
  {
    var r := EncodedDefault(id, params);
    var body := Join(OrEmpty(params), ",");
    assert r == id + "(" + body + ")";
    assert r[|id| + 1..|r| - 1] == body;
    PiecesOfJoin(OrEmpty(params), ',');
  }

  /** `w` is made of whitespace only. */
  predicate Blank(w: string) {
    forall k :: 0 <= k < |w| ==> IsWhitespace(w[k])
  }

  lemma {:induction false} TrimStartBlank(w: string, t: string)
    requires Blank(w) && (t == "" || !IsWhitespace(t[0]))
    ensures TrimStart(w + t) == t
    decreases |w|
  {
    if w == "" {
      assert w + t == t;
    } else {
      assert (w + t)[0] == w[0];
      assert (w + t)[1..] == w[1..] + t;
      TrimStartBlank(w[1..], t);
    }
  }

  lemma {:induction false} TrimEndBlank(t: string, w: string)
    requires Blank(w) && (t == "" || !IsWhitespace(t[|t| - 1]))
    ensures TrimEnd(t + w) == t
    decreases |w|
  {
    if w == "" {
      assert t + w == t;
    } else {
      var u := t + w;
      assert u[|u| - 1] == w[|w| - 1];
      assert u[..|u| - 1] == t + w[..|w| - 1];
      TrimEndBlank(t, w[..|w| - 1]);
    }
  }

  /** Trimming removes exactly the whitespace padding around a parameter. */
  lemma TrimPadded(left: string, p: string, right: string)
    requires Blank(left) && Blank(right) && p != "" && !IsWhitespace(p[0]) && !IsWhitespace(p[|p| - 1])
    ensures Trim(left + (p + right)) == p
  {
    TrimStartBlank(left, p + right);
    TrimEndBlank(p, right);
  }

  /** Every parameter with whitespace padding on both sides. */
  function Pad(lefts: seq<string>, ps: seq<string>, rights: seq<string>): (r: seq<string>)
    requires |lefts| == |ps| == |rights|
    ensures |r| == |ps| && forall i :: 0 <= i < |ps| ==> r[i] == lefts[i] + (ps[i] + rights[i])
  {
    seq(|ps|, i requires 0 <= i < |ps| => lefts[i] + (ps[i] + rights[i]))
  }

  /** Whitespace around a parameter is trimmed: encoding padded plain
      parameters decodes to the unpadded ones. */
  lemma DefaultRoundTripTrims(id: string, lefts: seq<string>, ps: seq<string>, rights: seq<string>)
    requires id != "" && Free(id, '(')
    requires |lefts| == |ps| == |rights|
    requires forall i :: 0 <= i < |ps| ==> PlainParam(ps[i]) && Blank(lefts[i]) && Blank(rights[i])
    ensures DecodeDefault(EncodedDefault(id, Somes(Pad(lefts, ps, rights)))) == Ok(Decoded(id, ps))
  {
    var padded := Pad(lefts, ps, rights);
    PadFree(lefts, ps, rights);
    var body := Join(padded, ",");
    JoinFree(padded, ",", ')');
    DecodeDefaultOf(id, body);
    assert Split(body, ',') == padded by {
      if |ps| == 0 {
        assert Pieces(body, ',') == [""];
      } else {
        PiecesOfJoin(padded, ',');
        NonEmptyKeeps(padded);
      }
    }
    PadTrimmed(lefts, ps, rights);
  }

  /** Padded plain parameters are non-empty and have no `,` or `)`. */
  lemma PadFree(lefts: seq<string>, ps: seq<string>, rights: seq<string>)
    requires |lefts| == |ps| == |rights|
    requires forall i :: 0 <= i < |ps| ==> PlainParam(ps[i]) && Blank(lefts[i]) && Blank(rights[i])
    ensures forall i :: 0 <= i < |ps| ==>
      Pad(lefts, ps, rights)[i] != "" && Free(Pad(lefts, ps, rights)[i], ',') && Free(Pad(lefts, ps, rights)[i], ')')
  {
    forall i | 0 <= i < |ps|
      ensures Free(lefts[i] + (ps[i] + rights[i]), ',') && Free(lefts[i] + (ps[i] + rights[i]), ')')
    {
      FreeConcat(ps[i], rights[i], ',');
      FreeConcat(lefts[i], ps[i] + rights[i], ',');
      FreeConcat(ps[i], rights[i], ')');
      FreeConcat(lefts[i], ps[i] + rights[i], ')');
    }
  }

  /** Trimming every padded parameter gives the parameters back. */
  lemma PadTrimmed(lefts: seq<string>, ps: seq<string>, rights: seq<string>)
    requires |lefts| == |ps| == |rights|
    requires forall i :: 0 <= i < |ps| ==> PlainParam(ps[i]) && Blank(lefts[i]) && Blank(rights[i])
    ensures TrimAll(Pad(lefts, ps, rights)) == ps
  {
    forall i | 0 <= i < |ps|
      ensures Trim(Pad(lefts, ps, rights)[i]) == ps[i]
    {
      TrimPadded(lefts[i], ps[i], rights[i]);
    }
  }

  /** A leading `(` leaves no id; a missing `)` leaves no parameters. */
  lemma DecodeDefaultErrorExamples()
    ensures DecodeDefault("(a)") == Err(CantReadId)
    ensures DecodeDefault("f(a") == Err(CantReadParameters)
  {
    OccursAtChar("(a)", 0, '(');
    OccursAtChar("f(a", 0, '(');
    OccursAtChar("f(a", 1, '(');
    OccursAtChar("f(a", 2, ')');
  }

  // ---------------------------------------------------------------------
  // Properties of the escaped format

  /** The groups `<<<p1>>>,<<<p2>>>...` of an escaped parameter list. */
  function Groups(ps: seq<string>): string {
    if |ps| == 0 then ""
    else if |ps| == 1 then OpenGroup + ps[0] + CloseGroup
    else OpenGroup + ps[0] + CloseGroup + Comma + Groups(ps[1..])
  }

  /** The escaped encoder writes exactly the groups of its parameters, when
      they are all present and non-empty. */
  lemma EncodedGroups(id: string, ps: seq<string>)
    requires forall i :: 0 <= i < |ps| ==> ps[i] != ""
    ensures EncodedWithAdditionalEscaping(id, Somes(ps)) == id + "(" + Groups(ps) + ")"
  {
    if |ps| > 0 {
      assert |Join(ps, GroupSeparator)| > 0;
      WrappedJoin(ps);
    }
  }

  lemma {:induction false} WrappedJoin(ps: seq<string>)
    requires |ps| >= 1
    ensures OpenGroup + Join(ps, GroupSeparator) + CloseGroup == Groups(ps)
  {
    if |ps| >= 2 {
      WrappedJoin(ps[1..]);
      var x, r := ps[0], Join(ps[1..], GroupSeparator);
      var b := OpenGroup + x + CloseGroup + Comma;
      assert GroupSeparator == CloseGroup + Comma + OpenGroup;
      calc {
        OpenGroup + Join(ps, GroupSeparator) + CloseGroup;
        OpenGroup + (x + GroupSeparator + r) + CloseGroup;
        { SeqAssoc(OpenGroup, x + GroupSeparator, r); SeqAssoc(OpenGroup, x, GroupSeparator); }
        OpenGroup + x + GroupSeparator + r + CloseGroup;
        { SeqAssoc(OpenGroup + x, CloseGroup + Comma, OpenGroup); SeqAssoc(OpenGroup + x, CloseGroup, Comma); }
        b + OpenGroup + r + CloseGroup;
        { SeqAssoc(b, OpenGroup, r); SeqAssoc(b, OpenGroup + r, CloseGroup); }
        b + (OpenGroup + r + CloseGroup);
      }
    }
  }

  /** A parameter the escaped decoder gives back unchanged: non-empty,
      without `>`, and not starting with whitespace or a newline. */
  predicate EscapableParam(p: string) {
    p != "" && Free(p, '>') && !IsWhitespaceOrNewline(p[0])
  }

  /** The layout of `<<<p>>>` followed by `tail`, at `q`. */
  lemma GroupLayout(s: string, q: nat, p: string, tail: string)
    requires q <= |s| && s[q..] == OpenGroup + p + CloseGroup + tail
    ensures q + |p| + 6 + |tail| == |s|
    ensures s[q..q + 3] == OpenGroup && s[q + 3..q + 3 + |p|] == p
    ensures s[q + 3 + |p|..q + 6 + |p|] == CloseGroup && s[q + 6 + |p|..] == tail
  {
    var g := s[q..];
    assert g[..3] == OpenGroup && g[3..3 + |p|] == p && g[3 + |p|..6 + |p|] == CloseGroup;
    assert g[6 + |p|..] == tail;
  }

  /** Skipping stops at once before a character that is not blank, and at
      the end. */
  lemma SkipStops(s: string, i: nat)
    requires i <= |s| && (i == |s| || !IsWhitespaceOrNewline(s[i]))
    ensures SkipFrom(s, i, true) == i
  {
  }

  /** The first `>>>` after a parameter without `>` is the one right after it. */
  lemma FindCloseAfter(s: string, b: nat, p: string)
    requires b + |p| <= |s| && s[b..b + |p|] == p && Free(p, '>')
    requires OccursAt(s, b + |p|, CloseGroup)
    ensures FindFrom(s, CloseGroup, b) == b + |p|
  {
    assert forall i :: b <= i < b + |p| ==> s[i] == s[b..b + |p|][i - b];
    FindFromPast(s, CloseGroup, b, b + |p|);
  }

  /** One round over `<<<p>>>` followed by a comma, `)` or nothing: it yields
      `p` and moves past the comma, if there is one. */
  lemma GroupRound(s: string, q: nat, p: string, tail: string)
    requires q <= |s| && s[q..] == OpenGroup + p + CloseGroup + tail
    requires EscapableParam(p) && (tail == "" || tail[0] == ',' || tail[0] == ')')
    ensures NextParam(s, q) == Some((p, if tail != "" && tail[0] == ',' then q + |p| + 7 else q + |p| + 6))
  {
    GroupLayout(s, q, p, tail);
    var b := q + |OpenGroup|;
    var e := b + |p|;
    assert s[q] == s[q..q + 3][0];
    SkipStops(s, q);
    assert s[b] == s[b..e][0];
    SkipStops(s, b);
    FindCloseAfter(s, b, p);
    NextParamFound(s, q, b, e);
    NextGroupAt(s, e, tail);
  }

  /** After `>>>`, the next round starts past a comma that follows at once,
      and right after `>>>` otherwise. */
  lemma NextGroupAt(s: string, e: nat, tail: string)
    requires e + |CloseGroup| <= |s| && s[e + |CloseGroup|..] == tail
    requires tail == "" || tail[0] == ',' || tail[0] == ')'
    ensures NextGroup(s, e) == if tail != "" && tail[0] == ',' then e + |CloseGroup| + 1 else e + |CloseGroup|
  {
    var c := e + |CloseGroup|;
    assert tail != "" ==> s[c] == tail[0];
    SkipStops(s, c);
    if tail != "" {
      OccursAtChar(s, c, ',');
    }
  }

  /** How an encoded text ends after its groups: with the closing `)`, or
      cut off right after them. */
  predicate IsEnd(end: string) {
    end == ")" || end == ""
  }

  /** Where `)` or the end of the text follows, no group opens and the list
      ends. */
  lemma NoGroupAtEnd(s: string, q: nat, end: string)
    requires q <= |s| && s[q..] == end && IsEnd(end)
    ensures EscapedParams(s, q) == []
  {
    if end == ")" {
      assert s[q] == s[q..][0] == ')';
    }
    assert SkipFrom(s, q, true) == q;
  }

  /** What follows the first group of a non-empty list. */
  function AfterFirstGroup(ps: seq<string>, end: string): string
    requires |ps| >= 1
  {
    if |ps| == 1 then end else Comma + (Groups(ps[1..]) + end)
  }

  lemma GroupsFirst(ps: seq<string>, end: string)
    requires |ps| >= 1
    ensures Groups(ps) + end == OpenGroup + ps[0] + CloseGroup + AfterFirstGroup(ps, end)
  {
    if |ps| >= 2 {
      var x := OpenGroup + ps[0] + CloseGroup;
      var g := Groups(ps[1..]);
      assert Groups(ps) == x + Comma + g;
      SeqAssoc(x + Comma, g, end);
      SeqAssoc(x, Comma, g + end);
    }
  }

  lemma SeqAssoc(x: string, y: string, z: string)
    ensures (x + y) + z == x + (y + z)
  {
  }

  /** A round that yields a parameter adds it in front of the rest. */
  lemma EscapedParamsCons(s: string, q: nat, p: string, next: nat)
    requires q <= |s| && NextParam(s, q) == Some((p, next))
    ensures EscapedParams(s, q) == [p] + EscapedParams(s, next)
  {
  }

  /** The first group of `ps`, read in one round; the rest of the groups
      start where the next round does. */
  lemma GroupStep(s: string, q: nat, ps: seq<string>, end: string) returns (next: nat)
    requires q <= |s| && s[q..] == Groups(ps) + end && IsEnd(end) && |ps| >= 1
    requires EscapableParam(ps[0])
    ensures q < next <= |s| && s[next..] == Groups(ps[1..]) + end
    ensures NextParam(s, q) == Some((ps[0], next))
  {
    var p := ps[0];
    var tail := AfterFirstGroup(ps, end);
    next := if |ps| == 1 then q + |p| + 6 else q + |p| + 7;
    GroupsFirst(ps, end);
    assert tail == "" || tail[0] == ',' || tail[0] == ')';
    GroupRound(s, q, p, tail);
    GroupLayout(s, q, p, tail);
    if |ps| > 1 {
      assert s[next..] == tail[1..];
    } else {
      assert Groups(ps[1..]) == "";
    }
  }

  /** From the start of the groups of `ps`, followed by `)` or by nothing,
      the loop collects exactly `ps`. */
  lemma {:induction false} EscapedParamsOfGroups(s: string, q: nat, ps: seq<string>, end: string)
    requires q <= |s| && s[q..] == Groups(ps) + end && IsEnd(end)
    requires forall i :: 0 <= i < |ps| ==> EscapableParam(ps[i])
    ensures EscapedParams(s, q) == ps
    decreases |ps|
  {
    if |ps| == 0 {
      NoGroupAtEnd(s, q, end);
    } else {
      var next := GroupStep(s, q, ps, end);
      EscapedParamsCons(s, q, ps[0], next);
      EscapedParamsOfGroups(s, next, ps[1..], end);
      assert ps == [ps[0]] + ps[1..];
    }
  }

  /** With an id that is non-empty, has no `(` and does not start with a
      blank, the escaped decoder reads that id and then the groups after
      its `(`. */
  lemma DecodeEscapedHead(id: string, rest: string)
    requires id != "" && Free(id, '(') && !IsWhitespaceOrNewline(id[0])
    ensures DecodeWithAdditionalEscaping(id + "(" + rest) == Ok(Decoded(id, EscapedParams(id + "(" + rest, |id| + 1)))
  {
    var s := id + "(" + rest;
    var j := |id|;
    assert s[0] == id[0];
    SkipStops(s, 0);
    assert forall i :: 0 <= i < j ==> s[i] == id[i];
    FindFromPast(s, "(", 0, j);
    OccursAtChar(s, j, '(');
    assert s[..j] == id;
  }

  /** The escaped decoder on `id(` followed by the groups of `ps` and by `)`
      or by nothing: a missing `)` is not an error. */
  lemma DecodeEscapedOf(id: string, ps: seq<string>, end: string)
    requires id != "" && Free(id, '(') && !IsWhitespaceOrNewline(id[0]) && IsEnd(end)
    requires forall i :: 0 <= i < |ps| ==> EscapableParam(ps[i])
    ensures DecodeWithAdditionalEscaping(id + "(" + Groups(ps) + end) == Ok(Decoded(id, ps))
  {
    var x := id + "(";
    var rest := Groups(ps) + end;
    SeqAssoc(x, Groups(ps), end);
    DecodeEscapedHead(id, rest);
    var s := x + rest;
    assert s[|x|..] == rest;
    EscapedParamsOfGroups(s, |x|, ps, end);
  }

  /** Round trip of the escaped format: the id and every parameter come
      back, when the id is non-empty, has no `(` and does not start with a
      blank, and every parameter is present and escapable. */
  lemma EscapedRoundTrip(id: string, ps: seq<string>)
    requires id != "" && Free(id, '(') && !IsWhitespaceOrNewline(id[0])
    requires forall i :: 0 <= i < |ps| ==> EscapableParam(ps[i])
    ensures DecodeWithAdditionalEscaping(EncodedWithAdditionalEscaping(id, Somes(ps))) == Ok(Decoded(id, ps))
  {
    EncodedGroups(id, ps);
    DecodeEscapedOf(id, ps, ")");
  }

  /** A single missing or empty parameter is encoded as `id()` and so is
      lost: the decoder gives no parameters back. */
  lemma EscapedEmptyParamLost(id: string, p: Option<string>)
    requires id != "" && Free(id, '(') && !IsWhitespaceOrNewline(id[0])
    requires p.GetOr("") == ""
    ensures DecodeWithAdditionalEscaping(EncodedWithAdditionalEscaping(id, [p])) == Ok(Decoded(id, []))
  {
    assert EncodedWithAdditionalEscaping(id, [p]) == id + "(" + Groups([]) + ")";
    DecodeEscapedOf(id, [], ")");
  }

  /** An empty group `<<<>>>` ends the list. */
  lemma EmptyGroupEndsList(s: string, q: nat)
    requires q + 6 <= |s| && s[q..q + 6] == OpenGroup + CloseGroup
    ensures EscapedParams(s, q) == []
  {
    assert s[q] == s[q..q + 6][0] == '<';
    assert s[q .. q + 3] == s[q..q + 6][..3] == OpenGroup;
    assert SkipFrom(s, q, true) == q;
    assert s[q + 3] == s[q..q + 6][3] == '>';
    assert SkipFrom(s, q + 3, true) == q + 3;
    assert s[q + 3..q + 6] == s[q..q + 6][3..] == CloseGroup;
  }

  /** The escaped decoder fails only to read the id, and exactly when,
      after the leading blanks, a `(` comes first or none comes at all. */
  lemma DecodeEscapedErrors(s: string)
    ensures var start := SkipFrom(s, 0, true);
      DecodeWithAdditionalEscaping(s).Err? <==>
        (start < |s| && s[start] == '(') || forall i :: start <= i < |s| ==> s[i] != '('
    ensures DecodeWithAdditionalEscaping(s).Err? ==> DecodeWithAdditionalEscaping(s).error == CantReadId
  {
    var start := SkipFrom(s, 0, true);
    FindCharAbsent(s, '(', start);
    if start < |s| {
      OccursAtChar(s, start, '(');
    }
  }
}
