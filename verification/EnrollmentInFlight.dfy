/**
 Enrollment requests in flight together. A request is four steps with the store calls between them:
 the token is looked up and validated; the nonce is consumed and the response checked; the use is
 counted; the agent is registered. Any number of requests and the admin's actions interleave.
 */
module EnrollmentInFlight {
  import opened Base
  import opened Crypto
  import opened Enrollment

  datatype Flight =
    | Validated(i: Input, tok: TokenRow)
    | Cleared(i: Input, tok: TokenRow, jwt: Cipher)
    | Counted(i: Input, tok: TokenRow, jwt: Cipher)
    | Over(granted: bool)

  /** What happened on a token, by the number of the request. */
  datatype Entry =
    | Saw(f: nat, id: string)      // validated, and found usable
    | Use(f: nat, id: string, unused: bool)   // counted; and whether it was unused until then
    | Grant(f: nat, id: string)    // answered with a JWT

  datatype Op =
    | Arrive(f: nat, i: Input)
    | Check(f: nat)
    | Count(f: nat)
    | Finish(f: nat)
    | Admin(a: AdminOp)

  /** ids: every token id ever created, with its reusable flag. */
  datatype World = World(s: Server, ids: map<string, bool>, flights: map<nat, Flight>, hist: seq<Entry>)

  function Ends(w: World, f: nat): World
  {
    w.(flights := w.flights[f := Over(false)])
  }

  /** validateEnrollmentToken; a number is used once. */
  function DoArrive(matches: Matcher, w: World, f: nat, i: Input): World
  {
    if f in w.flights then w
    else if i.fault == LookupFails then Ends(w, f)
    else
      match Validate(matches, w.s, i.req.token, i.req.host, i.now)
      case Err(_) => Ends(w, f)
      case Ok(tok) => w.(flights := w.flights[f := Validated(i, tok)], hist := w.hist + [Saw(f, tok.id)])
  }

  /** Phase 1, or the part of phase 2 before the use is counted. */
  function DoCheck(w: World, f: nat): World
  {
    if f !in w.flights || !w.flights[f].Validated? then w
    else
      var i := w.flights[f].i;
      if w.s.key.None? then Ends(w, f)
      else if i.req.response.None? then Ends(w, f).(s := IssueChallenge(w.s, i).0)
      else
        var dropped := w.(s := DropNonce(w.s, i.req.host));
        match LiveNonce(w.s, i.req.host, i.now)
        case None => Ends(dropped, f)
        case Some(p) =>
          if CheckResponse(w.s.key.value, p, i.req.response.value).Some? then Ends(dropped, f)
          else
            match Encrypt(i.req.pem, SignedToken(Sign(w.s.secret, i.req.host, i.jti, i.now, w.s.ttl)))
            case None => Ends(dropped, f)
            case Some(c) => dropped.(flights := w.flights[f := Cleared(i, w.flights[f].tok, c)])
  }

  /** The row that the count is going to change has use_count 0. */
  predicate FoundUnused(s: Server, id: string)
  {
    exists h | h in s.db.tokens :: s.db.tokens[h].id == id && s.db.tokens[h].useCount == 0
  }

  /** ConsumeEnrollmentToken */
  function DoCount(w: World, f: nat): World
  {
    if f !in w.flights || !w.flights[f].Cleared? then w
    else
      var Cleared(i, tok, jwt) := w.flights[f];
      if i.fault == ConsumeFails then Ends(w, f)
      else
        match ConsumeToken(w.s, tok.id, i.now)
        case None => Ends(w, f)
        case Some(s') =>
          w.(s := s', flights := w.flights[f := Counted(i, tok, jwt)],
             hist := w.hist + [Use(f, tok.id, FoundUnused(w.s, tok.id))])
  }

  /** AddAuthorizedKey and RegisterAgent */
  function DoFinish(w: World, f: nat): World
  {
    if f !in w.flights || !w.flights[f].Counted? then w
    else
      var Counted(i, tok, _) := w.flights[f];
      var s1 := w.s.(db := w.s.db.(keys := w.s.db.keys[i.req.host := KeyRow(i.req.pem, tok.id)]));
      if i.fault == RegisterFails then Ends(w, f).(s := s1)
      else
        w.(s := s1.(db := s1.db.(agents := s1.db.agents[i.req.host := AgentRow(i.req.pem, i.jti)])),
           flights := w.flights[f := Over(true)], hist := w.hist + [Grant(f, tok.id)])
  }

  function Do(matches: Matcher, w: World, op: Op): World
  {
    match op
    case Arrive(f, i) => DoArrive(matches, w, f, i)
    case Check(f) => DoCheck(w, f)
    case Count(f) => DoCount(w, f)
    case Finish(f) => DoFinish(w, f)
    case Admin(a) =>
      var (s', ids) := Administer(w.s, w.ids, a);
      w.(s := s', ids := ids)
  }

  function Run(matches: Matcher, w: World, ops: seq<Op>): World
    decreases |ops|
  {
    if ops == [] then w else Run(matches, Do(matches, w, ops[0]), ops[1..])
  }

  predicate Fresh(w: World)
  {
    w.s.db.tokens == map[] && w.s.nonces == map[] && w.hist == [] && w.ids == map[] && w.flights == map[]
  }

  /** What checking leaves alone, and where it takes the request. */
  lemma CheckIs(w: World, f: nat)
    ensures var w' := DoCheck(w, f);
            && w'.s.db == w.s.db && w'.ids == w.ids && w'.hist == w.hist
            && (w'.flights == w.flights
                || (f in w.flights && w.flights[f].Validated?
                    && (w'.flights == w.flights[f := Over(false)]
                        || exists c :: w'.flights == w.flights[f := Cleared(w.flights[f].i, w.flights[f].tok, c)])))
  {
  }

  /** Counting and registering are Persist. */
  lemma CountAndFinish(w: World, f: nat, i: Input, tok: TokenRow, jwt: Cipher)
    requires f in w.flights && w.flights[f] == Cleared(i, tok, jwt) && w.s.key.Some?
    ensures var w' := DoFinish(DoCount(w, f), f);
            && w'.s == Persist(w.s, tok, i, jwt).0
            && f in w'.flights && w'.flights[f] == Over(Persist(w.s, tok, i, jwt).1.Granted?)
  {
  }

  lemma CheckAndRest(w: World, f: nat, i: Input, tok: TokenRow)
    requires f in w.flights && w.flights[f] == Validated(i, tok)
    ensures var w' := DoFinish(DoCount(DoCheck(w, f), f), f);
            && w'.s == Proceed(w.s, tok, i).0
            && f in w'.flights && w'.flights[f] == Over(Proceed(w.s, tok, i).1.Granted?)
  {
    var w1 := DoCheck(w, f);
    if w1.flights[f].Cleared? {
      CountAndFinish(w1, f, i, tok, w1.flights[f].jwt);
    }
  }

  /** The four steps of one request with nothing in between are the request as one step. */
  lemma StepsAreHandle(matches: Matcher, w: World, f: nat, i: Input)
    requires f !in w.flights
    ensures var w' := DoFinish(DoCount(DoCheck(DoArrive(matches, w, f, i), f), f), f);
            && w'.s == Handle(matches, w.s, i).0
            && f in w'.flights && w'.flights[f] == Over(Handle(matches, w.s, i).1.Granted?)
  {
    var w1 := DoArrive(matches, w, f, i);
    if w1.flights[f].Validated? {
      CheckAndRest(w1, f, i, w1.flights[f].tok);
    }
  }

  // ---- What every run keeps ----

  /** How often uses of the token were counted. */
  function UseCount(hist: seq<Entry>, id: string): nat
  {
    if hist == [] then 0
    else
      var last := hist[|hist| - 1];
      UseCount(hist[..|hist| - 1], id) + if last.Use? && last.id == id then 1 else 0
  }

  lemma UseCountSnoc(hist: seq<Entry>, e: Entry, id: string)
    ensures UseCount(hist + [e], id) == UseCount(hist, id) + if e.Use? && e.id == id then 1 else 0
  {
    assert (hist + [e])[..|hist + [e]| - 1] == hist;
  }

  /** Rows carry the flag of their id, and their use_count is the number of uses counted. */
  ghost predicate RowsOk(w: World)
  {
    && (forall h | h in w.s.db.tokens ::
          w.s.db.tokens[h].id in w.ids && w.ids[w.s.db.tokens[h].id] == w.s.db.tokens[h].reusable)
    && (forall h | h in w.s.db.tokens :: w.s.db.tokens[h].useCount == UseCount(w.hist, w.s.db.tokens[h].id))
    && (forall id | id !in w.ids :: UseCount(w.hist, id) == 0)
  }

  /** How far a request has come, by what the history says of it. */
  ghost predicate FlightsOk(w: World)
  {
    && (forall e | e in w.hist :: e.id in w.ids && e.f in w.flights)
    && (forall e | e in w.hist && e.Use? :: w.flights[e.f].Counted? || w.flights[e.f].Over?)
    && (forall e | e in w.hist && e.Grant? :: w.flights[e.f] == Over(true))
    && (forall f | f in w.flights && !w.flights[f].Over? :: Saw(f, w.flights[f].tok.id) in w.hist)
    && (forall f | f in w.flights && w.flights[f].Counted? :: HasUse(w.hist, f, w.flights[f].tok.id))
  }

  ghost predicate HasUse(hist: seq<Entry>, f: nat, id: string)
  {
    exists e :: e in hist && e.Use? && e.f == f && e.id == id
  }

  /** The entry at p has what comes before it, and a request is counted and granted once. */
  ghost predicate EntryOk(ids: map<string, bool>, hist: seq<Entry>, p: nat)
    requires p < |hist|
  {
    var e := hist[p];
    && (e.Use? ==> Saw(e.f, e.id) in hist[..p] && (e.unused <==> UseCount(hist[..p], e.id) == 0))
    && (e.Grant? ==> HasUse(hist[..p], e.f, e.id) && forall d | d in hist[..p] && d.Grant? :: d.f != e.f)
    && (e.Saw? && e.id in ids && !ids[e.id] ==> UseCount(hist[..p], e.id) == 0)
  }

  ghost predicate HistOk(w: World)
  {
    forall p | 0 <= p < |w.hist| :: EntryOk(w.ids, w.hist, p)
  }

  lemma HistSnoc(w: World, w': World, e: Entry)
    requires HistOk(w) && w'.ids == w.ids && w'.hist == w.hist + [e] && EntryOk(w.ids, w.hist + [e], |w.hist|)
    ensures HistOk(w')
  {
    forall p | 0 <= p < |w'.hist| ensures EntryOk(w'.ids, w'.hist, p) {
      if p < |w.hist| {
        assert w'.hist[..p] == w.hist[..p] && w'.hist[p] == w.hist[p];
        assert EntryOk(w.ids, w.hist, p);
      }
    }
  }

  ghost predicate Inv(w: World)
  {
    RowsOk(w) && FlightsOk(w) && HistOk(w)
  }

  /** What arriving does: nothing, or the end of the request, or its validation on a row it may use. */
  lemma ArriveIs(matches: Matcher, w: World, f: nat, i: Input)
    ensures var w' := DoArrive(matches, w, f, i);
            || w' == w
            || (f !in w.flights && w' == Ends(w, f))
            || (f !in w.flights && exists h | h in w.s.db.tokens :: Arrived(w, w', f, i, w.s.db.tokens[h]))
  {
    if f !in w.flights && i.fault != LookupFails && Validate(matches, w.s, i.req.token, i.req.host, i.now).Ok? {
      assert Arrived(w, DoArrive(matches, w, f, i), f, i, w.s.db.tokens[Sha256(i.req.token)]);
    }
  }

  ghost predicate Arrived(w: World, w': World, f: nat, i: Input, tok: TokenRow)
  {
    && (tok.reusable || tok.useCount == 0)
    && w' == w.(flights := w.flights[f := Validated(i, tok)], hist := w.hist + [Saw(f, tok.id)])
  }

  lemma ArrivedKeepsRows(w: World, w': World, f: nat, i: Input, tok: TokenRow)
    requires RowsOk(w) && Arrived(w, w', f, i, tok)
    ensures RowsOk(w')
  {
    forall id ensures UseCount(w'.hist, id) == UseCount(w.hist, id) {
      UseCountSnoc(w.hist, Saw(f, tok.id), id);
    }
  }

  lemma ArrivedKeepsHist(w: World, w': World, f: nat, i: Input, h: Digest)
    requires RowsOk(w) && HistOk(w) && h in w.s.db.tokens && Arrived(w, w', f, i, w.s.db.tokens[h])
    ensures HistOk(w')
  {
    var e := Saw(f, w.s.db.tokens[h].id);
    assert (w.hist + [e])[..|w.hist|] == w.hist;
    HistSnoc(w, w', e);
  }

  lemma ArrivedKeepsFlights(w: World, w': World, f: nat, i: Input, tok: TokenRow)
    requires FlightsOk(w) && f !in w.flights && tok.id in w.ids && Arrived(w, w', f, i, tok)
    ensures FlightsOk(w')
  {
    UsesStay(w.hist, Saw(f, tok.id));
    assert Saw(f, tok.id) in w'.hist;
  }

  lemma EndsKeeps(w: World, f: nat)
    requires Inv(w) && f !in w.flights
    ensures Inv(Ends(w, f))
  {
    assert forall p | 0 <= p < |w.hist| :: EntryOk(w.ids, w.hist, p);
  }

  lemma ArriveKeeps(matches: Matcher, w: World, f: nat, i: Input)
    requires Inv(w)
    ensures Inv(DoArrive(matches, w, f, i))
  {
    var w' := DoArrive(matches, w, f, i);
    ArriveIs(matches, w, f, i);
    if f !in w.flights {
      if w' == Ends(w, f) {
        EndsKeeps(w, f);
      } else if h :| h in w.s.db.tokens && Arrived(w, w', f, i, w.s.db.tokens[h]) {
        ArrivedKeepsRows(w, w', f, i, w.s.db.tokens[h]);
        ArrivedKeepsHist(w, w', f, i, h);
        ArrivedKeepsFlights(w, w', f, i, w.s.db.tokens[h]);
      }
    }
  }

  lemma CheckKeeps(w: World, f: nat)
    requires Inv(w)
    ensures Inv(DoCheck(w, f))
  {
    var w' := DoCheck(w, f);
    CheckIs(w, f);
    assert HistOk(w') by {
      assert forall p | 0 <= p < |w.hist| :: EntryOk(w.ids, w.hist, p);
    }
  }

  /** Counting keeps every row's count. */
  lemma CountKeepsRows(w: World, f: nat)
    requires RowsOk(w) && FlightsOk(w)
    ensures RowsOk(DoCount(w, f))
  {
    var w' := DoCount(w, f);
    if f in w.flights && w.flights[f].Cleared? && w'.hist != w.hist {
      var e := Use(f, w.flights[f].tok.id, FoundUnused(w.s, w.flights[f].tok.id));
      assert Saw(f, w.flights[f].tok.id) in w.hist;
      forall id ensures UseCount(w'.hist, id) == UseCount(w.hist, id) + if e.id == id then 1 else 0 {
        UseCountSnoc(w.hist, e, id);
      }
    }
  }

  lemma CountKeepsHist(w: World, f: nat)
    requires Inv(w)
    ensures HistOk(DoCount(w, f))
  {
    var w' := DoCount(w, f);
    if f in w.flights && w.flights[f].Cleared? && w'.hist != w.hist {
      var e := Use(f, w.flights[f].tok.id, FoundUnused(w.s, w.flights[f].tok.id));
      assert (w.hist + [e])[..|w.hist|] == w.hist;
      HistSnoc(w, w', e);
    }
  }

  lemma CountKeepsFlights(w: World, f: nat)
    requires FlightsOk(w)
    ensures FlightsOk(DoCount(w, f))
  {
    var w' := DoCount(w, f);
    if f in w.flights && w.flights[f].Cleared? && w'.hist != w.hist {
      var e := Use(f, w.flights[f].tok.id, FoundUnused(w.s, w.flights[f].tok.id));
      UsesStay(w.hist, e);
      assert e in w'.hist;
    }
  }

  lemma UsesStay(hist: seq<Entry>, e: Entry)
    ensures forall f, id | HasUse(hist, f, id) :: HasUse(hist + [e], f, id)
  {
    forall f, id | HasUse(hist, f, id) ensures HasUse(hist + [e], f, id) {
      var d :| d in hist && d.Use? && d.f == f && d.id == id;
      assert d in hist + [e];
    }
  }

  lemma CountKeeps(w: World, f: nat)
    requires Inv(w)
    ensures Inv(DoCount(w, f))
  {
    CountKeepsRows(w, f);
    CountKeepsHist(w, f);
    CountKeepsFlights(w, f);
  }

  lemma FinishKeeps(w: World, f: nat)
    requires Inv(w)
    ensures Inv(DoFinish(w, f))
  {
    var w' := DoFinish(w, f);
    if f in w.flights && w.flights[f].Counted? && w'.hist != w.hist {
      var e := Grant(f, w.flights[f].tok.id);
      assert (w.hist + [e])[..|w.hist|] == w.hist;
      HistSnoc(w, w', e);
      UsesStay(w.hist, e);
      forall id ensures UseCount(w'.hist, id) == UseCount(w.hist, id) {
        UseCountSnoc(w.hist, e, id);
      }
    }
  }

  /** An admin step creates at most one row, under a new id, and counts nothing. */
  lemma AdministerIs(s: Server, ids: map<string, bool>, a: AdminOp)
    ensures var (s', ids') := Administer(s, ids, a);
            && (forall id | id in ids :: id in ids' && ids'[id] == ids[id])
            && (forall h | h in s'.db.tokens && !(h in s.db.tokens && s'.db.tokens[h] == s.db.tokens[h]) ::
                  var row := s'.db.tokens[h];
                  row.useCount == 0 && row.id !in ids && row.id in ids' && ids'[row.id] == row.reusable)
            && (forall h | h in s'.db.tokens && h in s.db.tokens :: s'.db.tokens[h] == s.db.tokens[h])
  {
  }

  lemma AdminKeepsRows(matches: Matcher, w: World, op: Op)
    requires RowsOk(w) && op.Admin?
    ensures RowsOk(Do(matches, w, op))
  {
    AdministerIs(w.s, w.ids, op.a);
  }

  lemma AdminKeepsHist(matches: Matcher, w: World, op: Op)
    requires FlightsOk(w) && HistOk(w) && op.Admin?
    ensures HistOk(Do(matches, w, op))
  {
    AdministerIs(w.s, w.ids, op.a);
    var w' := Do(matches, w, op);
    forall p | 0 <= p < |w'.hist| ensures EntryOk(w'.ids, w'.hist, p) {
      assert EntryOk(w.ids, w.hist, p);
      assert w.hist[p] in w.hist;
    }
  }

  lemma AdminKeeps(matches: Matcher, w: World, op: Op)
    requires Inv(w) && op.Admin?
    ensures Inv(Do(matches, w, op))
  {
    AdministerIs(w.s, w.ids, op.a);
    AdminKeepsRows(matches, w, op);
    AdminKeepsHist(matches, w, op);
  }

  lemma {:induction false} RunKeeps(matches: Matcher, w: World, ops: seq<Op>)
    requires Inv(w)
    ensures Inv(Run(matches, w, ops))
    decreases |ops|
  {
    if ops != [] {
      match ops[0] {
        case Arrive(f, i) => ArriveKeeps(matches, w, f, i);
        case Check(f) => CheckKeeps(w, f);
        case Count(f) => CountKeeps(w, f);
        case Finish(f) => FinishKeeps(w, f);
        case _ => AdminKeeps(matches, w, ops[0]);
      }
      RunKeeps(matches, Do(matches, w, ops[0]), ops[1..]);
    }
  }

  // ---- One-shot tokens: exactly when ----

  ghost predicate UsedAt(hist: seq<Entry>, p: nat, id: string)
  {
    p < |hist| && hist[p].Use? && hist[p].id == id
  }

  ghost predicate GrantedAt(hist: seq<Entry>, p: nat, id: string)
  {
    p < |hist| && hist[p].Grant? && hist[p].id == id
  }

  ghost predicate UsedAtMostOnce(hist: seq<Entry>, id: string)
  {
    forall p: nat, q: nat | UsedAt(hist, p, id) && UsedAt(hist, q, id) :: p == q
  }

  ghost predicate GrantedAtMostOnce(hist: seq<Entry>, id: string)
  {
    forall p: nat, q: nat | GrantedAt(hist, p, id) && GrantedAt(hist, q, id) :: p == q
  }

  lemma {:induction false} UsesCounted(hist: seq<Entry>, id: string)
    ensures UseCount(hist, id) == 0 <==> forall p: nat :: !UsedAt(hist, p, id)
    ensures UseCount(hist, id) <= 1 <==> UsedAtMostOnce(hist, id)
  {
    if hist != [] {
      var front, n := hist[..|hist| - 1], |hist| - 1;
      UsesCounted(front, id);
      assert forall p: nat | p < n :: UsedAt(hist, p, id) <==> UsedAt(front, p, id);
      if UsedAt(hist, n, id) && UseCount(front, id) > 0 {
        var p: nat :| UsedAt(front, p, id);
        assert UsedAt(hist, p, id) && p != n;
      }
      if UsedAtMostOnce(hist, id) {
        assert UsedAtMostOnce(front, id);
      }
    }
  }

  /**
   Over every run of any number of requests in flight together, a token is used at most once if and only
   if every ConsumeEnrollmentToken on it finds use_count 0: the test that comes too early in
   validateEnrollmentToken, made where it counts.
   */
  lemma UsedOnceIff(matches: Matcher, w: World, ops: seq<Op>, id: string)
    requires Fresh(w)
    ensures var hist := Run(matches, w, ops).hist;
            UsedAtMostOnce(hist, id) <==> forall p: nat | UsedAt(hist, p, id) :: hist[p].unused
  {
    RunKeeps(matches, w, ops);
    var w' := Run(matches, w, ops);
    var hist := w'.hist;
    forall p: nat | UsedAt(hist, p, id) ensures hist[p].unused <==> forall q: nat | q < p :: !UsedAt(hist, q, id) {
      assert EntryOk(w'.ids, hist, p);
      UsesCounted(hist[..p], id);
      assert forall q: nat | q < p :: UsedAt(hist[..p], q, id) <==> UsedAt(hist, q, id);
    }
  }

  /** Where a granted request was counted. */
  lemma CountOfGrant(w: World, p: nat, id: string) returns (use: nat)
    requires HistOk(w) && GrantedAt(w.hist, p, id)
    ensures use < p && UsedAt(w.hist, use, id) && w.hist[use].f == w.hist[p].f
  {
    assert EntryOk(w.ids, w.hist, p);
    var e :| e in w.hist[..p] && e.Use? && e.f == w.hist[p].f && e.id == id;
    use :| 0 <= use < |w.hist[..p]| && w.hist[..p][use] == e;
  }

  /** Each grant has a use of its own. */
  lemma GrantsNeedUses(w: World, id: string)
    requires HistOk(w) && UsedAtMostOnce(w.hist, id)
    ensures GrantedAtMostOnce(w.hist, id)
  {
    forall p: nat, q: nat | GrantedAt(w.hist, p, id) && GrantedAt(w.hist, q, id) ensures p == q {
      var a := CountOfGrant(w, p, id);
      var b := CountOfGrant(w, q, id);
      assert EntryOk(w.ids, w.hist, p) && EntryOk(w.ids, w.hist, q);
      assert w.hist[p] !in w.hist[..q] && w.hist[q] !in w.hist[..p];
    }
  }

  // ---- One request at a time on a one-shot token ----

  /** f has been validated on the token and is not over. */
  predicate InFlightOn(w: World, f: nat, id: string)
  {
    f in w.flights && !w.flights[f].Over? && w.flights[f].tok.id == id
  }

  ghost predicate OneAtATime(w: World, id: string)
  {
    forall f, g | InFlightOn(w, f, id) && InFlightOn(w, g, id) :: f == g
  }

  /** At no point of the run are two requests in flight on the token. */
  ghost predicate Serial(matches: Matcher, w: World, ops: seq<Op>, id: string)
    decreases |ops|
  {
    OneAtATime(w, id) && (ops != [] ==> Serial(matches, Do(matches, w, ops[0]), ops[1..], id))
  }

  /** Until its own use is counted, a request in flight is on an unused token; and that is at most one use. */
  ghost predicate SerialOk(w: World, id: string)
  {
    && UseCount(w.hist, id) <= 1
    && (forall f | InFlightOn(w, f, id) && !w.flights[f].Counted? :: UseCount(w.hist, id) == 0)
  }

  lemma SerialArrive(matches: Matcher, w: World, f: nat, i: Input, id: string)
    requires Inv(w) && SerialOk(w, id) && (id in w.ids ==> !w.ids[id])
    ensures SerialOk(DoArrive(matches, w, f, i), id)
  {
    var w' := DoArrive(matches, w, f, i);
    if w'.hist != w.hist {
      UseCountSnoc(w.hist, w'.hist[|w.hist|], id);
    }
  }

  lemma SerialCount(w: World, f: nat, id: string)
    requires Inv(w) && SerialOk(w, id) && OneAtATime(w, id)
    ensures SerialOk(DoCount(w, f), id)
  {
    var w' := DoCount(w, f);
    if w'.hist != w.hist {
      UseCountSnoc(w.hist, w'.hist[|w.hist|], id);
      forall g | InFlightOn(w', g, id) && !w'.flights[g].Counted? ensures UseCount(w'.hist, id) == 0 {
        assert InFlightOn(w, g, id);
        assert !InFlightOn(w, f, id);
      }
    }
  }

  lemma SerialFinish(w: World, f: nat, id: string)
    requires SerialOk(w, id)
    ensures SerialOk(DoFinish(w, f), id)
  {
    var w' := DoFinish(w, f);
    if w'.hist != w.hist {
      UseCountSnoc(w.hist, w'.hist[|w.hist|], id);
    }
  }

  lemma SerialStep(matches: Matcher, w: World, op: Op, id: string)
    requires Inv(w) && SerialOk(w, id) && OneAtATime(w, id) && (id in w.ids ==> !w.ids[id])
    ensures SerialOk(Do(matches, w, op), id)
  {
    match op
    case Arrive(f, i) => SerialArrive(matches, w, f, i, id);
    case Check(f) => CheckIs(w, f);
    case Count(f) => SerialCount(w, f, id);
    case Finish(f) => SerialFinish(w, f, id);
    case Admin(_) =>
  }

  lemma {:induction false} SerialRun(matches: Matcher, w: World, ops: seq<Op>, id: string)
    requires Inv(w) && SerialOk(w, id) && Serial(matches, w, ops, id)
    requires var ids := Run(matches, w, ops).ids; id in ids ==> !ids[id]
    ensures SerialOk(Run(matches, w, ops), id)
    decreases |ops|
  {
    if ops != [] {
      if id in w.ids {
        IdsGrow(matches, w, ops, id);
      }
      RunKeeps(matches, w, [ops[0]]);
      assert Run(matches, w, [ops[0]]) == Run(matches, Do(matches, w, ops[0]), []);
      SerialStep(matches, w, ops[0], id);
      SerialRun(matches, Do(matches, w, ops[0]), ops[1..], id);
    }
  }

  /** If at no point two requests are in flight on a one-shot token, it is granted at most once. */
  lemma SerialOnce(matches: Matcher, w: World, ops: seq<Op>, id: string)
    requires Fresh(w) && Serial(matches, w, ops, id)
    ensures var w' := Run(matches, w, ops);
            id in w'.ids && !w'.ids[id] ==> UsedAtMostOnce(w'.hist, id) && GrantedAtMostOnce(w'.hist, id)
  {
    var w' := Run(matches, w, ops);
    RunKeeps(matches, w, ops);
    if id in w'.ids && !w'.ids[id] {
      SerialRun(matches, w, ops, id);
      UsesCounted(w'.hist, id);
      GrantsNeedUses(w', id);
    }
  }

  lemma {:induction false} IdsGrow(matches: Matcher, w: World, ops: seq<Op>, id: string)
    requires id in w.ids
    ensures id in Run(matches, w, ops).ids && Run(matches, w, ops).ids[id] == w.ids[id]
    decreases |ops|
  {
    if ops != [] {
      if ops[0].Check? {
        CheckIs(w, ops[0].f);
      }
      IdsGrow(matches, Do(matches, w, ops[0]), ops[1..], id);
    }
  }

  // ---- Two at a time ----

  /** A validated request with a genuine response to a live challenge. */
  predicate Ready(w: World, f: nat, tok: TokenRow)
  {
    && f in w.flights && w.flights[f].Validated? && w.flights[f].tok == tok && w.s.key.Some?
    && var i := w.flights[f].i;
    && i.fault == NoFault && i.req.pem.PublicKey? && i.req.response.Some?
    && i.req.host in w.s.nonces && i.now <= w.s.nonces[i.req.host].expiresAt
    && CheckResponse(w.s.key.value, w.s.nonces[i.req.host], i.req.response.value).None?
  }

  lemma {:induction false} RunAppend(matches: Matcher, w: World, a: seq<Op>, b: seq<Op>)
    ensures Run(matches, w, a + b) == Run(matches, Run(matches, w, a), b)
    decreases |a|
  {
    if a == [] {
      assert a + b == b;
    } else {
      assert (a + b)[1..] == a[1..] + b;
      RunAppend(matches, Do(matches, w, a[0]), a[1..], b);
    }
  }

  lemma RunTwo(matches: Matcher, w: World, x: Op, y: Op)
    ensures Run(matches, w, [x, y]) == Do(matches, Do(matches, w, x), y)
  {
    assert [x, y][1..] == [y] && [y][1..] == [];
    assert Run(matches, Do(matches, w, x), [y]) == Run(matches, Do(matches, Do(matches, w, x), y), []);
  }

  lemma ReadyClears(w: World, f: nat, tok: TokenRow) returns (c: Cipher)
    requires Ready(w, f, tok)
    ensures var i := w.flights[f].i;
            DoCheck(w, f) == w.(s := DropNonce(w.s, i.req.host), flights := w.flights[f := Cleared(i, tok, c)])
  {
    var i := w.flights[f].i;
    c := Encrypt(i.req.pem, SignedToken(Sign(w.s.secret, i.req.host, i.jti, i.now, w.s.ttl))).value;
  }

  lemma BothCleared(matches: Matcher, w: World, f: nat, g: nat, tok: TokenRow) returns (c: Cipher, d: Cipher)
    requires f != g && Ready(w, f, tok) && Ready(w, g, tok) && w.flights[f].i.req.host != w.flights[g].i.req.host
    ensures var w' := Run(matches, w, [Check(f), Check(g)]);
            && w'.s.db == w.s.db
            && w'.flights == w.flights[f := Cleared(w.flights[f].i, tok, c)][g := Cleared(w.flights[g].i, tok, d)]
  {
    RunTwo(matches, w, Check(f), Check(g));
    c := ReadyClears(w, f, tok);
    d := ReadyClears(DoCheck(w, f), g, tok);
  }

  lemma BothCounted(matches: Matcher, w: World, f: nat, g: nat, tok: TokenRow, hash: Digest)
    requires f != g && f in w.flights && g in w.flights && w.flights[f].Cleared? && w.flights[g].Cleared?
    requires w.flights[f].tok == tok && w.flights[g].tok == tok
    requires w.flights[f].i.fault == NoFault && w.flights[g].i.fault == NoFault
    requires hash in w.s.db.tokens && w.s.db.tokens[hash].id == tok.id
    ensures var (a, b) := (w.flights[f], w.flights[g]);
            Run(matches, w, [Count(f), Count(g)]).flights ==
            w.flights[f := Counted(a.i, tok, a.jwt)][g := Counted(b.i, tok, b.jwt)]
  {
    var w1 := DoCount(w, f);
    assert w1.s.db.tokens[hash].id == tok.id;
    RunTwo(matches, w, Count(f), Count(g));
  }

  lemma BothFinished(matches: Matcher, w: World, f: nat, g: nat, tok: TokenRow)
    requires f != g && f in w.flights && g in w.flights && w.flights[f].Counted? && w.flights[g].Counted?
    requires w.flights[f].tok == tok && w.flights[g].tok == tok
    requires w.flights[f].i.fault == NoFault && w.flights[g].i.fault == NoFault
    ensures Run(matches, w, [Finish(f), Finish(g)]).hist == w.hist + [Grant(f, tok.id), Grant(g, tok.id)]
  {
    RunTwo(matches, w, Finish(f), Finish(g));
  }

  function Rest(f: nat, g: nat): seq<Op>
  {
    [Check(f), Check(g)] + [Count(f), Count(g)] + [Finish(f), Finish(g)]
  }

  /**
   From any state in which two requests of two hosts have been validated on one row, used or not, and
   each holds a genuine response to a live challenge, some continuation grants the token twice.
   */
  lemma TwoInFlightGrantedTwice(matches: Matcher, w: World, f: nat, g: nat, tok: TokenRow, hash: Digest)
    requires f != g && Ready(w, f, tok) && Ready(w, g, tok) && w.flights[f].i.req.host != w.flights[g].i.req.host
    requires hash in w.s.db.tokens && w.s.db.tokens[hash].id == tok.id
    ensures !GrantedAtMostOnce(Run(matches, w, Rest(f, g)).hist, tok.id)
  {
    var one: seq<Op>, two: seq<Op> := [Check(f), Check(g)], [Count(f), Count(g)];
    var three: seq<Op> := [Finish(f), Finish(g)];
    RunAppend(matches, w, one + two, three);
    RunAppend(matches, w, one, two);
    var c, d := BothCleared(matches, w, f, g, tok);
    var w1 := Run(matches, w, one);
    BothCounted(matches, w1, f, g, tok, hash);
    var w2 := Run(matches, w1, two);
    BothFinished(matches, w2, f, g, tok);
    var hist := Run(matches, w2, three).hist;
    assert GrantedAt(hist, |w2.hist|, tok.id) && GrantedAt(hist, |w2.hist| + 1, tok.id);
  }

  // ---- A run that grants a one-shot token twice ----

  /** Two agents, and the token they share. */
  datatype Scene = Scene(
    a: Host, b: Host, keyA: Key, keyB: Key, nonceA: seq<Byte>, nonceB: seq<Byte>,
    token: string, id: string, serverKey: Key, now: int)

  function Row(x: Scene): TokenRow
  {
    TokenRow(x.id, "", false, 0, None, None)
  }

  function Ask(x: Scene, h: Host, key: Key, nonce: seq<Byte>): Input
  {
    Input(Request(h, PublicKey(key), x.token, None), x.now, nonce, "", NoFault)
  }

  function Answer(x: Scene, h: Host, key: Key, nonce: seq<Byte>): Input
  {
    var response := Oaep(x.serverKey, Bytes(nonce + Utf8(x.token)));
    Input(Request(h, PublicKey(key), x.token, Some(response)), x.now, nonce, h, NoFault)
  }

  /** A new one-shot token and two challenges. */
  function Challenges(x: Scene): seq<Op>
  {
    [Admin(Create(Sha256(x.token), Row(x))),
     Arrive(0, Ask(x, x.a, x.keyA, x.nonceA)), Check(0), Arrive(1, Ask(x, x.b, x.keyB, x.nonceB)), Check(1)]
  }

  /** Two validations before the rest of either. */
  function Responses(x: Scene): seq<Op>
  {
    [Arrive(2, Answer(x, x.a, x.keyA, x.nonceA)), Arrive(3, Answer(x, x.b, x.keyB, x.nonceB))] + Rest(2, 3)
  }

  /** The state in which both agents hold a challenge. */
  ghost predicate Challenged(x: Scene, w: World)
  {
    && w.s.key == Some(x.serverKey) && w.s.db.tokens == map[Sha256(x.token) := Row(x)]
    && w.s.nonces == map[x.a := PendingNonce(x.nonceA, x.token, x.now + NONCE_TTL),
                         x.b := PendingNonce(x.nonceB, x.token, x.now + NONCE_TTL)]
    && w.flights == map[0 := Over(false), 1 := Over(false)]
  }

  /** A request for a challenge, in its two steps. */
  lemma ChallengeIssued(matches: Matcher, w: World, f: nat, i: Input)
    requires f !in w.flights && Validate(matches, w.s, i.req.token, i.req.host, i.now).Ok?
    requires i.fault == NoFault && w.s.key.Some? && i.req.response.None? && i.req.pem.PublicKey?
    ensures var w' := Run(matches, w, [Arrive(f, i), Check(f)]);
            && w'.s == StoreNonce(w.s, i.req.host, i.nonce, i.req.token, i.now)
            && w'.flights == w.flights[f := Over(false)]
  {
    RunTwo(matches, w, Arrive(f, i), Check(f));
  }

  lemma TokenCreated(matches: Matcher, x: Scene, w: World)
    requires Fresh(w)
    ensures var w' := Do(matches, w, Challenges(x)[0]);
            && w'.s == w.s.(db := w.s.db.(tokens := map[Sha256(x.token) := Row(x)]))
            && w'.flights == w.flights && w'.ids == map[x.id := false]
  {
  }

  lemma FirstChallenge(matches: Matcher, x: Scene, w: World)
    requires w.s.key == Some(x.serverKey) && w.s.nonces == map[] && w.flights == map[]
    requires w.s.db.tokens == map[Sha256(x.token) := Row(x)]
    ensures var i := Ask(x, x.a, x.keyA, x.nonceA);
            var w' := Run(matches, w, [Arrive(0, i), Check(0)]);
            && w'.s.key == w.s.key && w'.s.db == w.s.db && w'.flights == map[0 := Over(false)]
            && w'.s.nonces == map[x.a := PendingNonce(x.nonceA, x.token, x.now + NONCE_TTL)]
  {
    ChallengeIssued(matches, w, 0, Ask(x, x.a, x.keyA, x.nonceA));
  }

  lemma SecondChallenge(matches: Matcher, x: Scene, w: World)
    requires w.s.key == Some(x.serverKey) && w.flights == map[0 := Over(false)] && x.a != x.b
    requires w.s.nonces == map[x.a := PendingNonce(x.nonceA, x.token, x.now + NONCE_TTL)]
    requires w.s.db.tokens == map[Sha256(x.token) := Row(x)]
    ensures Challenged(x, Run(matches, w, [Arrive(1, Ask(x, x.b, x.keyB, x.nonceB)), Check(1)]))
  {
    ChallengeIssued(matches, w, 1, Ask(x, x.b, x.keyB, x.nonceB));
  }

  lemma ChallengesIssued(matches: Matcher, x: Scene, w: World)
    requires Fresh(w) && w.s.key == Some(x.serverKey) && x.a != x.b
    ensures Challenged(x, Run(matches, w, Challenges(x)))
  {
    var askA, askB := Ask(x, x.a, x.keyA, x.nonceA), Ask(x, x.b, x.keyB, x.nonceB);
    var one: seq<Op>, two: seq<Op>, three: seq<Op> :=
      [Challenges(x)[0]], [Arrive(0, askA), Check(0)], [Arrive(1, askB), Check(1)];
    assert Challenges(x) == one + two + three;
    RunAppend(matches, w, one + two, three);
    RunAppend(matches, w, one, two);
    assert Run(matches, w, one) == Do(matches, w, one[0]) by { assert one[1..] == []; }
    TokenCreated(matches, x, w);
    FirstChallenge(matches, x, Run(matches, w, one));
    SecondChallenge(matches, x, Run(matches, Run(matches, w, one), two));
  }

  // ---- The two responses ----

  /** Both have been validated. */
  lemma BothArrive(matches: Matcher, x: Scene, w: World)
    requires Challenged(x, w)
    ensures var a, b := Answer(x, x.a, x.keyA, x.nonceA), Answer(x, x.b, x.keyB, x.nonceB);
            var w' := Run(matches, w, [Arrive(2, a), Arrive(3, b)]);
            && w'.s == w.s && w'.flights == w.flights[2 := Validated(a, Row(x))][3 := Validated(b, Row(x))]
  {
    var a, b := Answer(x, x.a, x.keyA, x.nonceA), Answer(x, x.b, x.keyB, x.nonceB);
    RunTwo(matches, w, Arrive(2, a), Arrive(3, b));
  }

  lemma ResponsesGrantTwice(matches: Matcher, x: Scene, w: World)
    requires Challenged(x, w) && x.a != x.b
    ensures !GrantedAtMostOnce(Run(matches, w, Responses(x)).hist, x.id)
  {
    var a, b := Answer(x, x.a, x.keyA, x.nonceA), Answer(x, x.b, x.keyB, x.nonceB);
    BothArrive(matches, x, w);
    TwoInFlightGrantedTwice(matches, Run(matches, w, [Arrive(2, a), Arrive(3, b)]), 2, 3, Row(x), Sha256(x.token));
    RunAppend(matches, w, [Arrive(2, a), Arrive(3, b)], Rest(2, 3));
  }

  /** From a fresh server, for every two agents: a run that grants a one-shot token to both. */
  lemma OneShotTwice(matches: Matcher, x: Scene, w: World)
    requires Fresh(w) && w.s.key == Some(x.serverKey) && x.a != x.b
    ensures var w' := Run(matches, w, Challenges(x) + Responses(x));
            x.id in w'.ids && !w'.ids[x.id] && !GrantedAtMostOnce(w'.hist, x.id)
  {
    var mid := Run(matches, w, Challenges(x));
    ChallengesIssued(matches, x, w);
    CreatedOneShot(matches, x, w);
    ResponsesGrantTwice(matches, x, mid);
    IdsGrow(matches, mid, Responses(x), x.id);
    RunAppend(matches, w, Challenges(x), Responses(x));
  }

  lemma CreatedOneShot(matches: Matcher, x: Scene, w: World)
    requires Fresh(w)
    ensures var w' := Run(matches, w, Challenges(x));
            x.id in w'.ids && !w'.ids[x.id]
  {
    var w1 := Do(matches, w, Challenges(x)[0]);
    TokenCreated(matches, x, w);
    IdsGrow(matches, w1, Challenges(x)[1..], x.id);
  }
}
