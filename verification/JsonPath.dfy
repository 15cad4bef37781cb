/** The path language of keyword sources: field access, array indexes and [] wildcards. */
module JsonPath {
  import opened Text

  datatype Segment = Field(name: string) | Index(i: nat) | Wildcard

  datatype Result<+T> = Ok(value: T) | Err

  // ----- parsing, from one position of the trimmed path on ---------------------

  /** What stands between the punctuation of a path. */
  datatype Piece = Name(text: string) | Bracket(text: string)

  function Prepend(piece: Piece, rest: Result<seq<Piece>>): Result<seq<Piece>> {
    if rest.Ok? then Ok([piece] + rest.value) else Err
  }

  predicate EndsField(c: char) {
    c == '.' || c == '['
  }

  /** Where the field that starts here ends. */
  function FieldEnd(s: string, i: nat): (e: nat)
    requires i <= |s|
    ensures i <= e <= |s|
    decreases |s| - i
  {
    if i == |s| || EndsField(s[i]) then i else FieldEnd(s, i + 1)
  }

  /** Where the next closing bracket is; |s| if there is none. */
  function BracketEnd(s: string, i: nat): (e: nat)
    requires i <= |s|
    ensures i <= e <= |s|
    decreases |s| - i
  {
    if i == |s| || s[i] == ']' then i else BracketEnd(s, i + 1)
  }

  /** The segment a selector between brackets stands for. */
  function Selector(text: string): Result<Segment> {
    var selector := TrimSpace(text);
    if selector == "" then Ok(Wildcard)
    else
      var index := Atoi(selector);
      if index.None? || index.value < 0 then Err else Ok(Index(index.value))
  }

  function FieldSegment(text: string): Result<Segment> {
    var field := TrimSpace(text);
    if field == "" || HasSpace(field) then Err else Ok(Field(field))
  }

  /** The segment a piece stands for. */
  function Read(piece: Piece): Result<Segment> {
    match piece
    case Name(text) => FieldSegment(text)
    case Bracket(text) => Selector(text)
  }

  /** The top of the parser's loop: a field, or a selector right away. */
  function Component(s: string, i: nat): Result<seq<Piece>>
    requires i < |s|
    decreases |s| - i, 1
  {
    if s[i] == '.' then Err
    else if s[i] == '[' then Tail(s, i)
    else
      var e := FieldEnd(s, i);
      Prepend(Name(s[i..e]), Tail(s, e))
  }

  /** Selectors, then the end of the path or a dot and the next field. */
  function Tail(s: string, i: nat): Result<seq<Piece>>
    requires i <= |s|
    decreases |s| - i, 0
  {
    if i == |s| then Ok([])
    else if s[i] == '[' then
      var e := BracketEnd(s, i);
      if e == |s| then Err else Prepend(Bracket(s[i + 1..e]), Tail(s, e + 1))
    else if s[i] != '.' then Err
    else if i + 1 == |s| || EndsField(s[i + 1]) then Err
    else Component(s, i + 1)
  }

  predicate Readable(pieces: seq<Piece>) {
    forall k :: 0 <= k < |pieces| ==> Read(pieces[k]).Ok?
  }

  function ReadAll(pieces: seq<Piece>): seq<Segment>
    requires Readable(pieces)
  {
    seq(|pieces|, k requires 0 <= k < |pieces| => Read(pieces[k]).value)
  }

  /** A path is accepted if it is well punctuated and every piece can be read. */
  function Parse(path: string): Result<seq<Segment>> {
    var p := TrimSpace(path);
    if p == "" then Err
    else
      var pieces := Component(p, 0);
      if pieces.Ok? && Readable(pieces.value) then Ok(ReadAll(pieces.value)) else Err
  }

  // ----- ParsePath as the program runs it --------------------------------------

  function Joined(done: seq<Piece>, rest: Result<seq<Piece>>): Result<seq<Piece>> {
    if rest.Ok? then Ok(done + rest.value) else Err
  }

  lemma JoinedPrepend(done: seq<Piece>, piece: Piece, rest: Result<seq<Piece>>)
    ensures Joined(done, Prepend(piece, rest)) == Joined(done + [piece], rest)
  {
    if rest.Ok? {
      assert done + ([piece] + rest.value) == done + [piece] + rest.value;
    }
  }

  lemma JoinedUnit(rest: Result<seq<Piece>>, done: seq<Piece>)
    ensures Joined([], rest) == rest
    ensures Joined(done, Ok([])) == Ok(done)
  {
    assert rest.Ok? ==> [] + rest.value == rest.value;
    assert done + [] == done;
  }

  /** The segments read so far are those of the pieces passed. */
  ghost predicate AllRead(pieces: seq<Piece>, segments: seq<Segment>) {
    |pieces| == |segments| && forall k :: 0 <= k < |pieces| ==> Read(pieces[k]) == Ok(segments[k])
  }

  lemma AllReadSnoc(pieces: seq<Piece>, segments: seq<Segment>, piece: Piece, seg: Segment)
    requires AllRead(pieces, segments) && Read(piece) == Ok(seg)
    ensures AllRead(pieces + [piece], segments + [seg])
  {
  }

  /** The pieces of the path, if it is well punctuated, hold one that cannot be read. */
  ghost predicate Spoiled(pieces: Result<seq<Piece>>) {
    pieces.Ok? ==> !Readable(pieces.value)
  }

  lemma SpoiledBy(done: seq<Piece>, piece: Piece, rest: Result<seq<Piece>>)
    requires Read(piece).Err?
    ensures Spoiled(Joined(done, Prepend(piece, rest)))
  {
    JoinedPrepend(done, piece, rest);
    if rest.Ok? {
      assert (done + [piece] + rest.value)[|done|] == piece;
    }
  }

  method ScanField(path: string, start: nat) returns (i: nat)
    requires start < |path|
    ensures i == FieldEnd(path, start)
  {
    i := start;
    while i < |path| && path[i] != '.' && path[i] != '['
      invariant start <= i <= |path|
      invariant FieldEnd(path, start) == FieldEnd(path, i)
    {
      i := i + 1;
    }
  }

  method FindBracket(path: string, start: nat) returns (e: nat)
    requires start <= |path|
    ensures e == BracketEnd(path, start)
  {
    e := start;
    while e < |path| && path[e] != ']'
      invariant start <= e <= |path|
      invariant BracketEnd(path, start) == BracketEnd(path, e)
    {
      e := e + 1;
    }
  }

  lemma TailAtBracket(path: string, i: nat, e: nat)
    requires i < |path| && path[i] == '[' && e == BracketEnd(path, i)
    ensures e == |path| ==> Tail(path, i) == Err
    ensures i < e < |path| ==> Tail(path, i) == Prepend(Bracket(path[i + 1..e]), Tail(path, e + 1))
    ensures i < e
  {
  }

  /** One selector: the body of the inner loop. */
  method ParseSelector(path: string, i: nat, ghost pieces: seq<Piece>, before: seq<Segment>)
      returns (next: nat, ghost piece: Piece, segments: seq<Segment>, ok: bool)
    requires i < |path| && path[i] == '[' && AllRead(pieces, before)
    ensures ok ==> i < next <= |path| && AllRead(pieces + [piece], segments)
    ensures ok ==> Tail(path, i) == Prepend(piece, Tail(path, next))
    ensures !ok ==> Spoiled(Joined(pieces, Tail(path, i)))
  {
    next, segments, piece := i, before, Bracket("");
    var e := FindBracket(path, i);
    TailAtBracket(path, i, e);
    if e == |path| {
      return next, piece, segments, false;
    }
    piece := Bracket(path[i + 1..e]);
    var selector := Selector(path[i + 1..e]);
    assert Read(piece) == selector;
    if selector.Err? {
      SpoiledBy(pieces, piece, Tail(path, e + 1));
      return next, piece, segments, false;
    }
    AllReadSnoc(pieces, before, piece, selector.value);
    return e + 1, piece, before + [selector.value], true;
  }

  /** The inner loop: all selectors that follow each other. done are the pieces passed before. */
  method ParseSelectors(path: string, start: nat, ghost done: seq<Piece>, before: seq<Segment>)
      returns (i: nat, ghost pieces: seq<Piece>, segments: seq<Segment>, ok: bool)
    requires start <= |path| && AllRead(done, before)
    ensures start <= i <= |path|
    ensures ok ==> (i < |path| ==> path[i] != '[')
    ensures ok ==> AllRead(pieces, segments) && Joined(done, Tail(path, start)) == Joined(pieces, Tail(path, i))
    ensures !ok ==> Spoiled(Joined(done, Tail(path, start)))
  {
    i, pieces, segments := start, done, before;
    while i < |path| && path[i] == '['
      invariant start <= i <= |path| && AllRead(pieces, segments)
      invariant Joined(done, Tail(path, start)) == Joined(pieces, Tail(path, i))
    {
      ghost var piece;
      var next;
      next, piece, segments, ok := ParseSelector(path, i, pieces, segments);
      if !ok {
        return i, pieces, segments, false;
      }
      JoinedPrepend(pieces, piece, Tail(path, next));
      pieces := pieces + [piece];
      i := next;
    }
    return i, pieces, segments, true;
  }

  /** An optional field and the selectors after it: the first half of one turn of the loop. */
  method ParseElement(path: string, start: nat, ghost done: seq<Piece>, before: seq<Segment>)
      returns (i: nat, ghost pieces: seq<Piece>, segments: seq<Segment>, ok: bool)
    requires start < |path| && AllRead(done, before)
    ensures start <= i <= |path|
    ensures ok ==> (i < |path| ==> path[i] != '[')
    ensures ok ==> AllRead(pieces, segments) && Joined(done, Component(path, start)) == Joined(pieces, Tail(path, i))
    ensures !ok ==> Spoiled(Joined(done, Component(path, start)))
  {
    i, pieces, segments := start, done, before;
    if path[i] == '.' {
      return i, pieces, segments, false;
    }
    if path[i] != '[' {
      i := ScanField(path, start);
      ghost var piece := Name(path[start..i]);
      var field := FieldSegment(path[start..i]);
      if field.Err? {
        SpoiledBy(pieces, piece, Tail(path, i));
        return i, pieces, segments, false;
      }
      JoinedPrepend(pieces, piece, Tail(path, i));
      AllReadSnoc(pieces, segments, piece, field.value);
      pieces, segments := pieces + [piece], segments + [field.value];
    }
    i, pieces, segments, ok := ParseSelectors(path, i, pieces, segments);
  }

  /** The end of the path, or a dot with a field behind it: the second half of the turn. */
  method NextElement(path: string, i: nat) returns (done: bool, ok: bool)
    requires i <= |path| && (i < |path| ==> path[i] != '[')
    ensures done ==> i == |path| && Tail(path, i) == Ok([])
    ensures !done && ok ==> i + 1 < |path| && Tail(path, i) == Component(path, i + 1)
    ensures !done && !ok ==> Tail(path, i) == Err
  {
    if i == |path| {
      return true, true;
    }
    if path[i] != '.' {
      return false, false;
    }
    return false, !(i + 1 == |path| || path[i + 1] == '.' || path[i + 1] == '[');
  }

  method ParsePath(raw: string) returns (r: Result<seq<Segment>>)
    ensures r == Parse(raw)
  {
    var path := TrimSpace(raw);
    if path == "" {
      return Err;
    }
    var segments: seq<Segment>, i := [], 0;
    ghost var pieces: seq<Piece> := [];
    JoinedUnit(Component(path, 0), []);
    while true
      invariant i < |path| && AllRead(pieces, segments)
      invariant Component(path, 0) == Joined(pieces, Component(path, i))
      decreases |path| - i
    {
      var ok;
      var next;
      next, pieces, segments, ok := ParseElement(path, i, pieces, segments);
      if !ok {
        return Err;
      }
      var done;
      done, ok := NextElement(path, next);
      if done {
        JoinedUnit(Ok([]), pieces);
        assert segments == ReadAll(pieces);
        return Ok(segments);
      }
      if !ok {
        return Err;
      }
      i := next + 1;
    }
  }

  // ----- rendering -------------------------------------------------------

  /** A field name the parser reads back unchanged. */
  predicate PlainName(name: string) {
    name != "" && forall c :: c in name ==> !EndsField(c) && !IsSpace(c)
  }

  predicate PlainSegment(seg: Segment) {
    match seg
    case Field(name) => PlainName(name)
    case Index(i) => i <= MAX_INT64
    case Wildcard => true
  }

  predicate Plain(segs: seq<Segment>) {
    forall k :: 0 <= k < |segs| ==> PlainSegment(segs[k])
  }

  function RenderSelector(seg: Segment): string {
    match seg
    case Field(name) => "." + name
    case Index(i) => "[" + Decimal(i) + "]"
    case Wildcard => "[]"
  }

  function RenderTail(segs: seq<Segment>): string {
    if segs == [] then "" else RenderSelector(segs[0]) + RenderTail(segs[1..])
  }

  /** The text of a path; only a leading field goes without its dot. */
  function Render(segs: seq<Segment>): string {
    if segs != [] && segs[0].Field? then segs[0].name + RenderTail(segs[1..]) else RenderTail(segs)
  }

  // ----- pieces and how they are written -------------------------------------------

  /** A name has text and ends nowhere within; a bracket closes at its end. */
  predicate Proper(piece: Piece) {
    match piece
    case Name(text) => text != "" && forall c :: c in text ==> !EndsField(c)
    case Bracket(text) => ']' !in text
  }

  predicate AllProper(pieces: seq<Piece>) {
    forall k :: 0 <= k < |pieces| ==> Proper(pieces[k])
  }

  function Spelled(piece: Piece): string {
    match piece
    case Name(text) => "." + text
    case Bracket(text) => "[" + text + "]"
  }

  function SpelledTail(pieces: seq<Piece>): string {
    if pieces == [] then "" else Spelled(pieces[0]) + SpelledTail(pieces[1..])
  }

  lemma FirstPiece(pieces: seq<Piece>)
    requires pieces != []
    ensures SpelledTail(pieces) == Spelled(pieces[0]) + SpelledTail(pieces[1..])
  {
  }

  /** A whole path; only a leading name goes without its dot. */
  function SpelledPath(pieces: seq<Piece>): string {
    if pieces != [] && pieces[0].Name? then pieces[0].text + SpelledTail(pieces[1..]) else SpelledTail(pieces)
  }

  lemma {:induction false} FieldEndAt(s: string, i: nat, e: nat)
    requires i <= e <= |s| && (forall k :: i <= k < e ==> !EndsField(s[k])) && (e < |s| ==> EndsField(s[e]))
    ensures FieldEnd(s, i) == e
    decreases e - i
  {
    if i < e {
      FieldEndAt(s, i + 1, e);
    }
  }

  lemma {:induction false} BracketEndAt(s: string, i: nat, e: nat)
    requires i <= e < |s| && (forall k :: i <= k < e ==> s[k] != ']') && s[e] == ']'
    ensures BracketEnd(s, i) == e
    decreases e - i
  {
    if i < e {
      BracketEndAt(s, i + 1, e);
    }
  }

  lemma PlainFieldSegment(name: string)
    requires PlainName(name)
    ensures FieldSegment(name) == Ok(Field(name))
  {
    TrimSpaceFixes(name);
  }

  lemma SelectorRoundTrip(seg: Segment)
    requires PlainSegment(seg) && !seg.Field?
    ensures Selector(PieceOf(seg).text) == Ok(seg)
  {
    if seg.Index? {
      var text := Decimal(seg.i);
      DecimalRoundTrip(seg.i);
      assert IsDigit(text[0]) && IsDigit(text[|text| - 1]);
      TrimSpaceFixes(text);
      AtoiReadsDecimal(seg.i);
    }
  }

  /** The text stands at this position. */
  predicate Holds(s: string, i: nat, text: string) {
    i + |text| <= |s| && forall k :: 0 <= k < |text| ==> s[i + k] == text[k]
  }

  lemma HoldsBoth(s: string, i: nat, a: string, b: string)
    requires Holds(s, i, a + b)
    ensures Holds(s, i, a) && Holds(s, i + |a|, b)
  {
    forall k | 0 <= k < |a|
      ensures s[i + k] == a[k]
    {
      assert (a + b)[k] == a[k];
    }
    forall k | 0 <= k < |b|
      ensures s[i + |a| + k] == b[k]
    {
      assert (a + b)[|a| + k] == b[k] && s[i + (|a| + k)] == (a + b)[|a| + k];
    }
  }

  lemma HoldsSlice(s: string, i: nat, text: string)
    requires Holds(s, i, text)
    ensures s[i..i + |text|] == text
  {
  }

  /** Here the path ends or a field does. */
  predicate StopsAt(s: string, i: nat) {
    i == |s| || (i < |s| && EndsField(s[i]))
  }

  /** The piece that is written for a segment. */
  function PieceOf(seg: Segment): Piece {
    match seg
    case Field(name) => Name(name)
    case Index(i) => Bracket(Decimal(i))
    case Wildcard => Bracket("")
  }

  function PiecesOf(segs: seq<Segment>): seq<Piece> {
    if segs == [] then [] else [PieceOf(segs[0])] + PiecesOf(segs[1..])
  }

  lemma {:induction false} RenderIsSpelled(segs: seq<Segment>)
    ensures RenderTail(segs) == SpelledTail(PiecesOf(segs)) && |PiecesOf(segs)| == |segs|
  {
    if segs != [] {
      RenderIsSpelled(segs[1..]);
      if segs[0].Wildcard? {
        assert "[]" == "[" + "" + "]";
      }
    }
  }

  /** What the pieces mean: a name without its outer spaces, unless it is blank or has inner ones; blank brackets are a
      wildcard, and others an index if they hold a number that is not negative. */
  lemma PiecesMean(text: string)
    ensures var name := TrimSpace(text);
      Read(Name(text)) == if name == "" || HasSpace(name) then Err else Ok(Field(name))
    ensures Read(Bracket(text)) == Ok(Wildcard) <==> TrimSpace(text) == ""
    ensures forall i: nat ::
      Read(Bracket(text)) == Ok(Index(i)) <==> TrimSpace(text) != "" && Atoi(TrimSpace(text)) == Some(i)
  {
  }

  // ----- written, then parsed ---------------------------------------------------------

  lemma FieldRoundTrip(s: string, i: nat, name: string)
    requires Holds(s, i, name) && Proper(Name(name)) && StopsAt(s, i + |name|)
    ensures i < |s| && !EndsField(s[i])
    ensures Component(s, i) == Prepend(Name(name), Tail(s, i + |name|))
  {
    var e := i + |name|;
    forall k | i <= k < e
      ensures !EndsField(s[k])
    {
      assert s[i + (k - i)] == name[k - i];
    }
    FieldEndAt(s, i, e);
    HoldsSlice(s, i, name);
    assert s[i + 0] == name[0];
  }

  lemma DottedRoundTrip(s: string, i: nat, name: string)
    requires Holds(s, i, "." + name) && Proper(Name(name)) && StopsAt(s, i + 1 + |name|)
    ensures Tail(s, i) == Prepend(Name(name), Tail(s, i + 1 + |name|))
  {
    HoldsBoth(s, i, ".", name);
    assert s[i + 0] == "."[0];
    FieldRoundTrip(s, i + 1, name);
  }

  lemma BracketRoundTrip(s: string, i: nat, text: string)
    requires Holds(s, i, "[" + text + "]") && ']' !in text
    ensures Tail(s, i) == Prepend(Bracket(text), Tail(s, i + |text| + 2))
  {
    HoldsBoth(s, i, "[" + text, "]");
    HoldsBoth(s, i, "[", text);
    var e := i + |text| + 1;
    assert s[i + 0] == "["[0] && s[e + 0] == "]"[0];
    forall k | i <= k < e
      ensures s[k] != ']'
    {
      assert k > i ==> s[i + 1 + (k - i - 1)] == text[k - i - 1];
    }
    BracketEndAt(s, i, e);
    HoldsSlice(s, i + 1, text);
  }

  /** One written piece is passed. */
  lemma PiecePasses(s: string, i: nat, piece: Piece)
    requires Proper(piece) && Holds(s, i, Spelled(piece)) && StopsAt(s, i + |Spelled(piece)|)
    ensures Tail(s, i) == Prepend(piece, Tail(s, i + |Spelled(piece)|))
  {
    match piece
    case Name(text) => DottedRoundTrip(s, i, text);
    case Bracket(text) => BracketRoundTrip(s, i, text);
  }

  /** The rest of the path from here on is the text of these pieces. */
  predicate Remains(s: string, i: nat, pieces: seq<Piece>) {
    Holds(s, i, SpelledTail(pieces)) && i + |SpelledTail(pieces)| == |s|
  }

  lemma RemainsSplit(s: string, i: nat, text: string, a: string, b: string)
    requires text == a + b && Holds(s, i, text) && i + |text| == |s|
    ensures Holds(s, i, a) && Holds(s, i + |a|, b) && i + |a| + |b| == |s|
  {
    HoldsBoth(s, i, a, b);
  }

  lemma RemainsAfterFirst(s: string, i: nat, pieces: seq<Piece>)
    requires pieces != [] && Remains(s, i, pieces)
    ensures Holds(s, i, Spelled(pieces[0])) && Remains(s, i + |Spelled(pieces[0])|, pieces[1..])
  {
    FirstPiece(pieces);
    RemainsSplit(s, i, SpelledTail(pieces), Spelled(pieces[0]), SpelledTail(pieces[1..]));
  }

  lemma RestStops(s: string, i: nat, pieces: seq<Piece>)
    requires Remains(s, i, pieces)
    ensures StopsAt(s, i)
  {
    assert SpelledTail(pieces) != "" ==> s[i + 0] == SpelledTail(pieces)[0];
  }

  lemma TailTurn(s: string, i: nat, pieces: seq<Piece>, next: nat)
    requires pieces != [] && Proper(pieces[0]) && Holds(s, i, Spelled(pieces[0]))
    requires next == i + |Spelled(pieces[0])| && StopsAt(s, next) && Tail(s, next) == Ok(pieces[1..])
    ensures Tail(s, i) == Ok(pieces)
  {
    PiecePasses(s, i, pieces[0]);
    assert pieces == [pieces[0]] + pieces[1..];
  }

  lemma {:induction false} TailRoundTrip(s: string, i: nat, pieces: seq<Piece>)
    requires AllProper(pieces) && Remains(s, i, pieces)
    ensures Tail(s, i) == Ok(pieces)
    decreases pieces
  {
    if pieces != [] {
      var next := i + |Spelled(pieces[0])|;
      RemainsAfterFirst(s, i, pieces);
      RestStops(s, next, pieces[1..]);
      TailRoundTrip(s, next, pieces[1..]);
      TailTurn(s, i, pieces, next);
    }
  }

  lemma PathRoundTrip(s: string, pieces: seq<Piece>)
    requires AllProper(pieces) && pieces != [] && s == SpelledPath(pieces)
    ensures s != "" && Component(s, 0) == Ok(pieces)
  {
    if pieces[0].Name? {
      var name := pieces[0].text;
      assert Proper(pieces[0]);
      HoldsBoth(s, 0, name, SpelledTail(pieces[1..]));
      RestStops(s, |name|, pieces[1..]);
      FieldRoundTrip(s, 0, name);
      TailRoundTrip(s, |name|, pieces[1..]);
      assert pieces == [pieces[0]] + pieces[1..];
    } else {
      assert Spelled(pieces[0])[0] == '[' && s[0] == '[';
      TailRoundTrip(s, 0, pieces);
    }
  }

  // ----- parsed, then written -----------------------------------------------------------

  lemma {:induction false} FieldEndStops(s: string, i: nat)
    requires i <= |s|
    ensures forall k :: i <= k < FieldEnd(s, i) ==> !EndsField(s[k])
    decreases |s| - i
  {
    if i < |s| && !EndsField(s[i]) {
      FieldEndStops(s, i + 1);
    }
  }

  lemma {:induction false} BracketEndStops(s: string, i: nat)
    requires i <= |s|
    ensures forall k :: i <= k < BracketEnd(s, i) ==> s[k] != ']'
    ensures BracketEnd(s, i) < |s| ==> s[BracketEnd(s, i)] == ']'
    decreases |s| - i
  {
    if i < |s| && s[i] != ']' {
      BracketEndStops(s, i + 1);
    }
  }

  /** The pieces found from a position on are proper, and written down they are what stands there. */
  ghost predicate Faithful(text: string, pieces: Result<seq<Piece>>) {
    pieces.Ok? ==> AllProper(pieces.value) && text == SpelledTail(pieces.value)
  }

  lemma FaithfulFirst(s: string, i: nat, e: nat, piece: Piece, rest: Result<seq<Piece>>)
    requires i <= e <= |s| && Proper(piece) && s[i..e] == Spelled(piece) && Faithful(s[e..], rest)
    ensures Faithful(s[i..], Prepend(piece, rest))
  {
    if rest.Ok? {
      assert ([piece] + rest.value)[1..] == rest.value;
      assert s[i..] == s[i..e] + s[e..];
    }
  }

  lemma {:induction false} ComponentIsFaithful(s: string, i: nat)
    requires i < |s| && s[i] != '['
    ensures Faithful("." + s[i..], Component(s, i))
    decreases |s| - i, 1
  {
    if s[i] != '.' {
      var e := FieldEnd(s, i);
      FieldEndStops(s, i);
      TailIsFaithful(s, e);
      var t := "." + s[i..];
      assert t[0..1 + e - i] == "." + s[i..e] && t[1 + e - i..] == s[e..];
      FaithfulFirst(t, 0, 1 + e - i, Name(s[i..e]), Tail(s, e));
      assert t[0..] == t;
    }
  }

  lemma BracketIsFaithful(s: string, i: nat)
    requires i < |s| && s[i] == '[' && BracketEnd(s, i) < |s|
    ensures var e := BracketEnd(s, i);
      Proper(Bracket(s[i + 1..e])) && s[i..e + 1] == Spelled(Bracket(s[i + 1..e]))
  {
    BracketEndStops(s, i);
    var e := BracketEnd(s, i);
    var text := s[i + 1..e];
    forall c | c in text ensures c != ']' {
      var k :| 0 <= k < |text| && text[k] == c;
      assert s[i + 1 + k] == c;
    }
    assert s[i..e + 1] == [s[i]] + text + [s[e]];
  }

  lemma BracketTurn(s: string, i: nat, e: nat)
    requires i < |s| && s[i] == '[' && e == BracketEnd(s, i) < |s| && Faithful(s[e + 1..], Tail(s, e + 1))
    ensures Faithful(s[i..], Tail(s, i))
  {
    BracketIsFaithful(s, i);
    FaithfulFirst(s, i, e + 1, Bracket(s[i + 1..e]), Tail(s, e + 1));
  }

  lemma {:induction false} TailIsFaithful(s: string, i: nat)
    requires i <= |s|
    ensures Faithful(s[i..], Tail(s, i))
    decreases |s| - i, 0
  {
    if i < |s| && s[i] == '[' {
      var e := BracketEnd(s, i);
      if e < |s| {
        TailIsFaithful(s, e + 1);
        BracketTurn(s, i, e);
      }
    } else if i + 1 < |s| && s[i] == '.' && !EndsField(s[i + 1]) {
      ComponentIsFaithful(s, i + 1);
      assert s[i..] == "." + s[i + 1..];
    }
  }

  lemma DropDot(s: string, pieces: seq<Piece>)
    requires "." + s == SpelledTail(pieces)
    ensures pieces != [] && s == SpelledPath(pieces)
  {
    assert ("." + s)[0] == '.';
    FirstPiece(pieces);
    var rest := SpelledTail(pieces[1..]);
    assert Spelled(pieces[0])[0] == '.';
    var name := pieces[0].text;
    assert ("." + name) + rest == "." + (name + rest);
    assert s == ("." + s)[1..] == ("." + (name + rest))[1..] == name + rest;
  }

  lemma PathIsFaithful(s: string)
    requires s != "" && Component(s, 0).Ok?
    ensures var pieces := Component(s, 0).value;
      pieces != [] && AllProper(pieces) && s == SpelledPath(pieces)
  {
    assert s[0..] == s;
    var pieces := Component(s, 0).value;
    if s[0] == '[' {
      TailIsFaithful(s, 0);
      FirstPiece(pieces);
      assert Spelled(pieces[0])[0] == '[';
    } else {
      ComponentIsFaithful(s, 0);
      DropDot(s, pieces);
    }
  }

  /** The accepted paths are exactly those that, trimmed, are written from proper pieces that can all be read:
      names between dots, and selectors that close. */
  lemma ParsesExactly(path: string, segs: seq<Segment>)
    ensures Parse(path) == Ok(segs) <==>
            exists pieces :: pieces != [] && AllProper(pieces) && TrimSpace(path) == SpelledPath(pieces)
                             && AllRead(pieces, segs)
  {
    var s := TrimSpace(path);
    if Parse(path) == Ok(segs) {
      PathIsFaithful(s);
      assert AllRead(Component(s, 0).value, segs);
    }
    if pieces :| pieces != [] && AllProper(pieces) && s == SpelledPath(pieces) && AllRead(pieces, segs) {
      PathRoundTrip(s, pieces);
      assert ReadAll(pieces) == segs;
    }
  }

  // ----- rendering, then parsing --------------------------------------------------------

  lemma DigitsHaveNoBracket(n: nat)
    ensures ']' !in Decimal(n)
  {
    DecimalRoundTrip(n);
  }

  lemma PieceRoundTrip(seg: Segment)
    requires PlainSegment(seg)
    ensures Read(PieceOf(seg)) == Ok(seg)
  {
    match seg
    case Field(name) => PlainFieldSegment(name);
    case Index(_) => SelectorRoundTrip(seg);
    case Wildcard => SelectorRoundTrip(seg);
  }

  lemma {:induction false} PiecesRoundTrip(segs: seq<Segment>)
    requires Plain(segs)
    ensures AllRead(PiecesOf(segs), segs) && AllProper(PiecesOf(segs))
  {
    if segs != [] {
      PieceRoundTrip(segs[0]);
      PiecesRoundTrip(segs[1..]);
      if segs[0].Index? {
        DigitsHaveNoBracket(segs[0].i);
      }
    }
  }

  predicate NoSpaces(s: string) {
    forall c :: c in s ==> !IsSpace(c)
  }

  lemma RenderSelectorNoSpaces(seg: Segment)
    requires PlainSegment(seg)
    ensures NoSpaces(RenderSelector(seg))
  {
    if seg.Index? {
      DecimalRoundTrip(seg.i);
      assert NoSpaces(Decimal(seg.i));
    }
  }

  lemma {:induction false} RenderTailNoSpaces(segs: seq<Segment>)
    requires Plain(segs)
    ensures NoSpaces(RenderTail(segs))
  {
    if segs != [] {
      RenderTailNoSpaces(segs[1..]);
      RenderSelectorNoSpaces(segs[0]);
    }
  }

  lemma RenderHasText(segs: seq<Segment>)
    requires Plain(segs) && segs != []
    ensures Render(segs) != "" && NoSpaces(Render(segs)) && TrimSpace(Render(segs)) == Render(segs)
  {
    RenderTailNoSpaces(segs);
    RenderTailNoSpaces(segs[1..]);
    assert PlainSegment(segs[0]);
    TrimSpaceFixes(Render(segs));
  }

  /** Rendering, then parsing, gives the segments back. */
  lemma RoundTrip(segs: seq<Segment>)
    requires Plain(segs) && segs != []
    ensures Parse(Render(segs)) == Ok(segs)
  {
    RenderHasText(segs);
    PiecesRoundTrip(segs);
    RenderIsSpelled(segs);
    RenderIsSpelled(segs[1..]);
    assert Render(segs) == SpelledPath(PiecesOf(segs));
    ParsesExactly(Render(segs), segs);
  }

  lemma RenderInjective(a: seq<Segment>, b: seq<Segment>)
    requires Plain(a) && Plain(b) && Render(a) == Render(b)
    ensures a == b
  {
    if a != [] && b != [] {
      RoundTrip(a);
      RoundTrip(b);
    } else if a != [] {
      RenderHasText(a);
    } else if b != [] {
      RenderHasText(b);
    }
  }

  // ----- every accepted path is the rendering of its segments -------------

  lemma FieldSegmentIsPlain(text: string)
    requires forall c :: c in text ==> !EndsField(c)
    ensures FieldSegment(text).Ok? ==> PlainSegment(FieldSegment(text).value)
  {
    TrimSpaceTrims(text);
  }

  lemma ProperIsPlain(piece: Piece)
    requires Proper(piece)
    ensures Read(piece).Ok? ==> PlainSegment(Read(piece).value)
  {
    if piece.Name? {
      FieldSegmentIsPlain(piece.text);
    }
  }

  /** An accepted path names at least one segment and all of them can be rendered; rendering them
      anew keeps the meaning. */
  lemma AcceptedIsRenderable(path: string, segs: seq<Segment>)
    requires Parse(path) == Ok(segs)
    ensures segs != [] && Plain(segs)
    ensures Parse(Render(segs)) == Parse(path)
  {
    PathIsFaithful(TrimSpace(path));
    var pieces := Component(TrimSpace(path), 0).value;
    forall k | 0 <= k < |pieces|
      ensures PlainSegment(segs[k])
    {
      ProperIsPlain(pieces[k]);
    }
    RoundTrip(segs);
  }

  /** Exactly the non-empty sequences of plain segments survive the round trip. */
  lemma RoundTripExactly(segs: seq<Segment>)
    ensures Parse(Render(segs)) == Ok(segs) <==> segs != [] && Plain(segs)
  {
    if segs != [] && Plain(segs) {
      RoundTrip(segs);
    } else if Parse(Render(segs)) == Ok(segs) {
      AcceptedIsRenderable(Render(segs), segs);
    }
  }
}
