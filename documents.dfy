/** The documents the validator accepts, described independently of the
    recursive descent: a structural grammar of objects, arrays and scalar
    tokens rendered as token kinds, and the proof that the parse functions
    accept exactly the renderings of such documents, leaving the state
    after the last token of the rendering. */
module Documents {
  import opened Options
  import opened Token
  import opened Scanner
  import opened Grammar

  /** A document as the validator sees it: only its structure and the kinds
      of its scalar tokens. */
  datatype Document =
    | Scalar(kind: TokenKind)
    | ArrayOf(elements: Items)
    | ObjectOf(members: Items)

  /** A list of elements or members. Each says whether a comma precedes it;
      the parsers accept commas only between items and do not require them,
      so the flag of the first item is ignored. */
  datatype Items = Nil | Cons(comma: bool, value: Document, rest: Items)

  /** Scalars are the kinds parseValue consumes as one token. */
  predicate WellFormed(v: Document) {
    match v
    case Scalar(k) => IsScalar(k)
    case ArrayOf(items) => AllWellFormed(items)
    case ObjectOf(items) => AllWellFormed(items)
  }

  predicate AllWellFormed(items: Items) {
    match items
    case Nil => true
    case Cons(_, v, rest) => WellFormed(v) && AllWellFormed(rest)
  }

  /** The token kinds of a document: an object's members are a string
      literal key, a colon and a value. */
  function Render(v: Document): seq<TokenKind> {
    match v
    case Scalar(k) => [k]
    case ArrayOf(items) => [LBracket] + (RenderItems(items, true, false) + [RBracket])
    case ObjectOf(items) => [LBrace] + (RenderItems(items, true, true) + [RBrace])
  }

  /** Each item: its comma unless it is the first, its key and colon if it
      is a member, then its value. */
  function RenderItems(items: Items, first: bool, keyed: bool): seq<TokenKind> {
    match items
    case Nil => []
    case Cons(comma, v, rest) =>
      Separator(comma, first) + (Key(keyed) + (Render(v) + RenderItems(rest, false, keyed)))
  }

  function Separator(comma: bool, first: bool): seq<TokenKind> {
    if comma && !first then [Comma] else []
  }

  function Key(keyed: bool): seq<TokenKind> {
    if keyed then [StringLit, Colon] else []
  }

  /** A well-formed document starts with a token that starts a value. */
  lemma RenderStart(v: Document)
    requires WellFormed(v)
    ensures |Render(v)| >= 1 && IsValueStart(Render(v)[0])
  {
  }

  /** Walking a sequence of kinds with nextToken: each current token must
      have the next kind (and not be EOF). */
  function Follow(runes: seq<char>, ps: PState, ks: seq<TokenKind>): (r: Option<PState>)
    requires Sane(runes, ps)
    ensures r.Some? ==> Sane(runes, r.value) && Fuel(runes, r.value) + |ks| <= Fuel(runes, ps)
    decreases |ks|
  {
    if ks == [] then Some(ps)
    else if ps.cur.kind != ks[0] || ps.cur.kind == Eof then None
    else
      match Advance(runes, ps)
      case None => None
      case Some(q) => Follow(runes, q, ks[1..])
  }

  /** Walking a concatenation is walking one part after the other. */
  lemma {:induction false} FollowAppend(runes: seq<char>, ps: PState, a: seq<TokenKind>, b: seq<TokenKind>)
    requires Sane(runes, ps)
    ensures Follow(runes, ps, a + b) ==
            match Follow(runes, ps, a)
            case None => None
            case Some(p) => Follow(runes, p, b)
    decreases |a|
  {
    if a != [] {
      assert (a + b)[0] == a[0];
      assert (a + b)[1..] == a[1..] + b;
      if ps.cur.kind == a[0] && ps.cur.kind != Eof {
        match Advance(runes, ps)
        case None =>
        case Some(q) => FollowAppend(runes, q, a[1..], b);
      }
    } else {
      assert a + b == b;
    }
  }

  /** A walk of a + b passes through the state after a. */
  lemma FollowSplit(runes: seq<char>, ps: PState, a: seq<TokenKind>, b: seq<TokenKind>, r: PState) returns (mid: PState)
    requires Sane(runes, ps) && Follow(runes, ps, a + b) == Some(r)
    ensures Sane(runes, mid) && Follow(runes, ps, a) == Some(mid) && Follow(runes, mid, b) == Some(r)
  {
    FollowAppend(runes, ps, a, b);
    mid := Follow(runes, ps, a).value;
  }

  lemma FollowJoin(runes: seq<char>, ps: PState, a: seq<TokenKind>, b: seq<TokenKind>, mid: PState, r: PState)
    requires Sane(runes, ps) && Follow(runes, ps, a) == Some(mid) && Sane(runes, mid) && Follow(runes, mid, b) == Some(r)
    ensures Follow(runes, ps, a + b) == Some(r)
  {
    FollowAppend(runes, ps, a, b);
  }

  /** A walk starts at a current token of the first kind. */
  lemma FollowHead(runes: seq<char>, ps: PState, ks: seq<TokenKind>, r: PState)
    requires Sane(runes, ps) && Follow(runes, ps, ks) == Some(r) && ks != []
    ensures ps.cur.kind == ks[0] && ks[0] != Eof
  {
  }

  /** Walking one kind is one nextToken call at a token of that kind. */
  lemma FollowOne(runes: seq<char>, ps: PState, k: TokenKind)
    requires Sane(runes, ps)
    ensures Follow(runes, ps, [k]) ==
            if ps.cur.kind != k || k == Eof then None else Advance(runes, ps)
  {
    assert [k][1..] == [];
  }

  /** A bracketed walk: the opener, the inside, the closer. */
  lemma FollowEnclosed(runes: seq<char>, ps: PState, open: TokenKind, inner: seq<TokenKind>, close: TokenKind, q: PState)
    returns (p1: PState, e: PState)
    requires Sane(runes, ps) && Follow(runes, ps, [open] + (inner + [close])) == Some(q)
    ensures ps.cur.kind == open && open != Eof && Advance(runes, ps) == Some(p1) && Sane(runes, p1)
    ensures Follow(runes, p1, inner) == Some(e) && Sane(runes, e)
    ensures e.cur.kind == close && close != Eof && Advance(runes, e) == Some(q)
  {
    p1 := FollowSplit(runes, ps, [open], inner + [close], q);
    FollowOne(runes, ps, open);
    e := FollowSplit(runes, p1, inner, [close], q);
    FollowOne(runes, e, close);
  }

  lemma UnfollowEnclosed(runes: seq<char>, ps: PState, open: TokenKind, inner: seq<TokenKind>, close: TokenKind,
                         p1: PState, e: PState, q: PState)
    requires Sane(runes, ps) && ps.cur.kind == open && open != Eof && Advance(runes, ps) == Some(p1) && Sane(runes, p1)
    requires Follow(runes, p1, inner) == Some(e) && Sane(runes, e)
    requires e.cur.kind == close && close != Eof && Advance(runes, e) == Some(q)
    ensures Follow(runes, ps, [open] + (inner + [close])) == Some(q)
  {
    FollowOne(runes, e, close);
    FollowJoin(runes, p1, inner, [close], e, q);
    FollowOne(runes, ps, open);
    FollowJoin(runes, ps, [open], inner + [close], p1, q);
  }

  // ---------------------------------------------------------------------
  // Completeness: every rendering is accepted

  lemma {:induction false} ValueComplete(m: Messages, runes: seq<char>, ps: PState, v: Document, q: PState)
    requires Sane(runes, ps) && WellFormed(v) && Follow(runes, ps, Render(v)) == Some(q)
    ensures Value(m, runes, ps) == Accepted(q)
    decreases v, 1
  {
    match v
    case Scalar(k) =>
      FollowOne(runes, ps, k);
    case ArrayOf(items) =>
      ArrayComplete(m, runes, ps, items, q);
    case ObjectOf(items) =>
      ObjectComplete(m, runes, ps, items, q);
  }

  lemma {:induction false} ArrayComplete(m: Messages, runes: seq<char>, ps: PState, items: Items, q: PState)
    requires Sane(runes, ps) && AllWellFormed(items) && Follow(runes, ps, Render(ArrayOf(items))) == Some(q)
    ensures Array(m, runes, ps) == Accepted(q)
    decreases ArrayOf(items), 0
  {
    var p1, e := FollowEnclosed(runes, ps, LBracket, RenderItems(items, true, false), RBracket, q);
    ElementsComplete(m, runes, p1, items, true, e);
  }

  lemma {:induction false} ObjectComplete(m: Messages, runes: seq<char>, ps: PState, items: Items, q: PState)
    requires Sane(runes, ps) && AllWellFormed(items) && Follow(runes, ps, Render(ObjectOf(items))) == Some(q)
    ensures Object(m, runes, ps) == Accepted(q)
    decreases ObjectOf(items), 0
  {
    var p1, e := FollowEnclosed(runes, ps, LBrace, RenderItems(items, true, true), RBrace, q);
    MembersComplete(m, runes, p1, items, true, e);
  }

  /** The optional comma before an item: walking it is SkipComma. */
  lemma FollowSeparator(runes: seq<char>, ps: PState, comma: bool, first: bool, rest: seq<TokenKind>, r: PState)
    returns (p1: PState)
    requires Sane(runes, ps) && Follow(runes, ps, Separator(comma, first) + rest) == Some(r)
    requires rest != [] && rest[0] != Comma && rest[0] != RBrace && rest[0] != RBracket
    ensures SkipComma(runes, ps, first) == Some(p1) && Follow(runes, p1, rest) == Some(r)
    ensures ps.cur.kind != RBrace && ps.cur.kind != RBracket
  {
    p1 := FollowSplit(runes, ps, Separator(comma, first), rest, r);
    if comma && !first {
      FollowOne(runes, ps, Comma);
    } else {
      FollowHead(runes, ps, rest, r);
    }
  }

  lemma {:induction false} ElementsComplete(m: Messages, runes: seq<char>, ps: PState, items: Items, first: bool, e: PState)
    requires Sane(runes, ps) && AllWellFormed(items)
    requires Follow(runes, ps, RenderItems(items, first, false)) == Some(e) && e.cur.kind == RBracket
    ensures Elements(m, runes, ps, first) == Accepted(e)
    decreases items
  {
    match items
    case Nil =>
    case Cons(comma, v, rest) =>
      var tail := RenderItems(rest, false, false);
      RenderStart(v);
      var p1 := FollowSeparator(runes, ps, comma, first, Key(false) + (Render(v) + tail), e);
      var p1' := FollowSplit(runes, p1, Key(false), Render(v) + tail, e);
      var p2 := FollowSplit(runes, p1, Render(v), tail, e);
      ValueComplete(m, runes, p1, v, p2);
      ElementsComplete(m, runes, p2, rest, false, e);
  }

  lemma {:induction false} MembersComplete(m: Messages, runes: seq<char>, ps: PState, items: Items, first: bool, e: PState)
    requires Sane(runes, ps) && AllWellFormed(items)
    requires Follow(runes, ps, RenderItems(items, first, true)) == Some(e) && e.cur.kind == RBrace
    ensures Members(m, runes, ps, first) == Accepted(e)
    decreases items
  {
    match items
    case Nil =>
    case Cons(comma, v, rest) =>
      var tail := RenderItems(rest, false, true);
      var p1 := FollowSeparator(runes, ps, comma, first, Key(true) + (Render(v) + tail), e);
      var p3 := FollowSplit(runes, p1, Key(true), Render(v) + tail, e);
      var p2 := FollowKey(runes, p1, p3);
      var p4 := FollowSplit(runes, p3, Render(v), tail, e);
      ValueComplete(m, runes, p3, v, p4);
      MembersComplete(m, runes, p4, rest, false, e);
  }

  /** Walking a member's key and colon is two nextToken calls. */
  lemma FollowKey(runes: seq<char>, p1: PState, p3: PState) returns (p2: PState)
    requires Sane(runes, p1) && Follow(runes, p1, Key(true)) == Some(p3)
    ensures p1.cur.kind == StringLit && Advance(runes, p1) == Some(p2) && Sane(runes, p2)
    ensures p2.cur.kind == Colon && Advance(runes, p2) == Some(p3)
  {
    assert Key(true) == [StringLit] + [Colon];
    p2 := FollowSplit(runes, p1, [StringLit], [Colon], p3);
    FollowOne(runes, p1, StringLit);
    FollowOne(runes, p2, Colon);
  }

  lemma UnfollowKey(runes: seq<char>, p1: PState, p2: PState, p3: PState)
    requires Sane(runes, p1) && p1.cur.kind == StringLit && Advance(runes, p1) == Some(p2) && Sane(runes, p2)
    requires p2.cur.kind == Colon && Advance(runes, p2) == Some(p3)
    ensures Follow(runes, p1, Key(true)) == Some(p3)
  {
    assert Key(true) == [StringLit] + [Colon];
    FollowOne(runes, p1, StringLit);
    FollowOne(runes, p2, Colon);
    FollowJoin(runes, p1, [StringLit], [Colon], p2, p3);
  }

  // ---------------------------------------------------------------------
  // Soundness: everything accepted is a rendering

  lemma {:induction false} ValueSound(m: Messages, runes: seq<char>, ps: PState) returns (v: Document)
    requires Sane(runes, ps) && Value(m, runes, ps).Accepted?
    ensures WellFormed(v) && Follow(runes, ps, Render(v)) == Some(Value(m, runes, ps).after)
    ensures ps.cur.kind == LBrace ==> v.ObjectOf?
    decreases Fuel(runes, ps), 2
  {
    match ps.cur.kind
    case LBracket => v := ArraySound(m, runes, ps);
    case LBrace => v := ObjectSound(m, runes, ps);
    case _ =>
      v := Scalar(ps.cur.kind);
      FollowOne(runes, ps, ps.cur.kind);
  }

  lemma {:induction false} ObjectSound(m: Messages, runes: seq<char>, ps: PState) returns (v: Document)
    requires Sane(runes, ps) && ps.cur.kind == LBrace && Object(m, runes, ps).Accepted?
    ensures v.ObjectOf? && WellFormed(v) && Follow(runes, ps, Render(v)) == Some(Object(m, runes, ps).after)
    decreases Fuel(runes, ps), 1
  {
    var p1 := Advance(runes, ps).value;
    var e := Members(m, runes, p1, true).after;
    var items := MembersSound(m, runes, p1, true);
    v := ObjectOf(items);
    UnfollowEnclosed(runes, ps, LBrace, RenderItems(items, true, true), RBrace, p1, e, Object(m, runes, ps).after);
  }

  lemma {:induction false} ArraySound(m: Messages, runes: seq<char>, ps: PState) returns (v: Document)
    requires Sane(runes, ps) && ps.cur.kind == LBracket && Array(m, runes, ps).Accepted?
    ensures WellFormed(v) && Follow(runes, ps, Render(v)) == Some(Array(m, runes, ps).after)
    decreases Fuel(runes, ps), 1
  {
    var p1 := Advance(runes, ps).value;
    var e := Elements(m, runes, p1, true).after;
    var items := ElementsSound(m, runes, p1, true);
    v := ArrayOf(items);
    UnfollowEnclosed(runes, ps, LBracket, RenderItems(items, true, false), RBracket, p1, e, Array(m, runes, ps).after);
  }

  /** The separator walked back: SkipComma's comma, if any, then the rest. */
  lemma UnfollowSeparator(runes: seq<char>, ps: PState, first: bool, p1: PState, rest: seq<TokenKind>, r: PState)
    requires Sane(runes, ps) && ps.cur.kind != Eof && SkipComma(runes, ps, first) == Some(p1)
    requires Sane(runes, p1) && Follow(runes, p1, rest) == Some(r)
    ensures Follow(runes, ps, Separator(!first && ps.cur.kind == Comma, first) + rest) == Some(r)
  {
    if !first && ps.cur.kind == Comma {
      FollowOne(runes, ps, Comma);
      FollowJoin(runes, ps, [Comma], rest, p1, r);
    } else {
      FollowJoin(runes, ps, [], rest, ps, r);
    }
  }

  lemma {:induction false} MembersSound(m: Messages, runes: seq<char>, ps: PState, first: bool) returns (items: Items)
    requires Sane(runes, ps) && Members(m, runes, ps, first).Accepted?
    ensures AllWellFormed(items)
    ensures Follow(runes, ps, RenderItems(items, first, true)) == Some(Members(m, runes, ps, first).after)
    decreases Fuel(runes, ps), 0
  {
    if ps.cur.kind == RBrace {
      items := Nil;
    } else {
      var e := Members(m, runes, ps, first).after;
      var p1 := SkipComma(runes, ps, first).value;
      var p2 := Advance(runes, p1).value;
      var p3 := Advance(runes, p2).value;
      var p4 := Value(m, runes, p3).after;
      var v := ValueSound(m, runes, p3);
      var rest := MembersSound(m, runes, p4, false);
      items := Cons(!first && ps.cur.kind == Comma, v, rest);
      var tail := RenderItems(rest, false, true);
      FollowJoin(runes, p3, Render(v), tail, p4, e);
      UnfollowKey(runes, p1, p2, p3);
      FollowJoin(runes, p1, Key(true), Render(v) + tail, p3, e);
      UnfollowSeparator(runes, ps, first, p1, Key(true) + (Render(v) + tail), e);
    }
  }

  lemma {:induction false} ElementsSound(m: Messages, runes: seq<char>, ps: PState, first: bool) returns (items: Items)
    requires Sane(runes, ps) && Elements(m, runes, ps, first).Accepted?
    ensures AllWellFormed(items)
    ensures Follow(runes, ps, RenderItems(items, first, false)) == Some(Elements(m, runes, ps, first).after)
    decreases Fuel(runes, ps), 3
  {
    if ps.cur.kind == RBracket {
      items := Nil;
    } else {
      var e := Elements(m, runes, ps, first).after;
      var p1 := SkipComma(runes, ps, first).value;
      var p2 := Value(m, runes, p1).after;
      var v := ValueSound(m, runes, p1);
      var rest := ElementsSound(m, runes, p2, false);
      items := Cons(!first && ps.cur.kind == Comma, v, rest);
      var tail := RenderItems(rest, false, false);
      FollowJoin(runes, p1, Render(v), tail, p2, e);
      FollowJoin(runes, p1, Key(false), Render(v) + tail, p1, e);
      UnfollowSeparator(runes, ps, first, p1, Key(false) + (Render(v) + tail), e);
    }
  }

  // ---------------------------------------------------------------------
  // The root

  /** The root document v is walked from the parser's first state s to q. */
  predicate Derives(runes: seq<char>, s: PState, v: Document, q: PState) {
    Sane(runes, s) && WellFormed(v) && v.ObjectOf? && Follow(runes, s, Render(v)) == Some(q)
  }

  /** parseObject from state s accepts, stopping in state q, exactly when
      the tokens from s on begin with the rendering of an object. */
  lemma ObjectAccepts(m: Messages, runes: seq<char>, s: PState, q: PState)
    requires Sane(runes, s)
    ensures Object(m, runes, s) == Accepted(q) <==> exists v :: Derives(runes, s, v, q)
  {
    if Object(m, runes, s) == Accepted(q) {
      assert s.cur.kind == LBrace;
      var v := ObjectSound(m, runes, s);
      assert Derives(runes, s, v, q);
    }
    if exists v :: Derives(runes, s, v, q) {
      var v :| Derives(runes, s, v, q);
      ValueComplete(m, runes, s, v, q);
      assert s.cur.kind == LBrace by {
        FollowHead(runes, s, Render(v), q);
      }
    }
  }

  /** Parse accepts, stopping in state q, exactly when the tokens from the
      first one on render an object; nothing after the object is looked at
      beyond the token peeked after its closing brace, so any tokens may
      follow. The messages play no part. */
  lemma ParseAccepts(m: Messages, runes: seq<char>, q: PState)
    ensures Parse(m, runes) == Accepted(q) <==>
            exists s, v :: Start(runes) == Some(s) && Derives(runes, s, v, q)
  {
    StartSane(runes);
    match Start(runes)
    case None =>
    case Some(s) =>
      ObjectAccepts(m, runes, s, q);
  }
}
