/** The memory store keys idempotency records by the string `scope + "|" + key`, Postgres by the pair. For the scopes
    the service builds the two never disagree, although client keys may contain `|`. */
module KeyTable {
  import opened Domain
  import opened Workflow
  import opened Database
  import opened Calls
  import opened Machine

  datatype Op = Get(scope: string, key: string) | Create(record: IdempotencyRecord)

  datatype Response = Found(record: IdempotencyRecord) | Missing | Stored | Refused

  function MemoryStep(table: map<string, IdempotencyRecord>, op: Op): (map<string, IdempotencyRecord>, Response) {
    match op
    case Get(scope, key) =>
      (table, if Compound(scope, key) in table then Found(table[Compound(scope, key)]) else Missing)
    case Create(record) =>
      if Compound(record.scope, record.key) in table then (table, Refused)
      else (table[Compound(record.scope, record.key) := record], Stored)
  }

  function PairStep(table: map<(string, string), IdempotencyRecord>, op: Op):
    (map<(string, string), IdempotencyRecord>, Response)
  {
    match op
    case Get(scope, key) => (table, if (scope, key) in table then Found(table[(scope, key)]) else Missing)
    case Create(record) =>
      if (record.scope, record.key) in table then (table, Refused)
      else (table[(record.scope, record.key) := record], Stored)
  }

  function MemoryRun(table: map<string, IdempotencyRecord>, ops: seq<Op>): seq<Response>
    decreases ops
  {
    if ops == [] then []
    else
      var (next, response) := MemoryStep(table, ops[0]);
      [response] + MemoryRun(next, ops[1..])
  }

  function PairRun(table: map<(string, string), IdempotencyRecord>, ops: seq<Op>): seq<Response>
    decreases ops
  {
    if ops == [] then []
    else
      var (next, response) := PairStep(table, ops[0]);
      [response] + PairRun(next, ops[1..])
  }

  function ScopeOf(op: Op): string {
    match op
    case Get(scope, _) => scope
    case Create(record) => record.scope
  }

  /** One scope, closed by `|`, begins the other. */
  predicate Collide(s: string, t: string) {
    s + "|" <= t + "|" || t + "|" <= s + "|"
  }

  /** Two scopes can share a compound key exactly when they collide. */
  lemma CompoundsCollide(s1: string, s2: string)
    ensures (exists k1, k2 :: Compound(s1, k1) == Compound(s2, k2)) <==> Collide(s1, s2)
  {
    if s1 + "|" <= s2 + "|" {
      var rest := (s2 + "|")[|s1| + 1..];
      assert Compound(s1, rest) == Compound(s2, "");
    } else if s2 + "|" <= s1 + "|" {
      var rest := (s1 + "|")[|s2| + 1..];
      assert Compound(s2, rest) == Compound(s1, "");
    }
    forall k1, k2 | Compound(s1, k1) == Compound(s2, k2) ensures Collide(s1, s2) {
      var c := Compound(s1, k1);
      assert s1 + "|" == c[..|s1| + 1] && s2 + "|" == Compound(s2, k2)[..|s2| + 1];
      assert if |s1| <= |s2| then c[..|s1| + 1] == c[..|s2| + 1][..|s1| + 1]
        else c[..|s2| + 1] == c[..|s1| + 1][..|s2| + 1];
    }
  }

  lemma BarClosesScope(s: string, t: string)
    requires '|' !in t && s + "|" <= t + "|"
    ensures s == t
  {
    assert (s + "|")[|s|] == '|';
    assert |s| >= |t| by { assert forall i :: 0 <= i < |t| ==> (t + "|")[i] == t[i] && t[i] in t; }
    assert s == (s + "|")[..|s|] && t == (t + "|")[..|t|];
  }

  lemma CompoundInjective(s1: string, k1: string, s2: string, k2: string)
    requires '|' !in s1 && '|' !in s2
    ensures Compound(s1, k1) == Compound(s2, k2) <==> s1 == s2 && k1 == k2
  {
    if Compound(s1, k1) == Compound(s2, k2) {
      CompoundsCollide(s1, s2);
      if s1 + "|" <= s2 + "|" { BarClosesScope(s1, s2); } else { BarClosesScope(s2, s1); }
      assert s1 == Compound(s1, k1)[..|s1|] && s2 == Compound(s2, k2)[..|s2|];
      assert k1 == Compound(s1, k1)[|s1| + 1..] && k2 == Compound(s2, k2)[|s2| + 1..];
    }
  }

  /** No two of these scopes collide. */
  ghost predicate Separate(scopes: iset<string>) {
    forall s, t :: s in scopes && t in scopes && s != t ==> !Collide(s, t)
  }

  /** Operations on these scopes. */
  ghost predicate Within(ops: seq<Op>, scopes: iset<string>) {
    forall op <- ops :: ScopeOf(op) in scopes
  }

  /** The two tables hold the same records, each under its own key, in these scopes. */
  ghost predicate Agree(memory: map<string, IdempotencyRecord>, pairs: map<(string, string), IdempotencyRecord>,
                        scopes: iset<string>) {
    && (forall k <- memory ::
          && memory[k].scope in scopes && k == Compound(memory[k].scope, memory[k].key)
          && (memory[k].scope, memory[k].key) in pairs)
    && (forall p <- pairs ::
          && p.0 in scopes && pairs[p].scope == p.0 && pairs[p].key == p.1
          && Compound(p.0, p.1) in memory && memory[Compound(p.0, p.1)] == pairs[p])
  }

  lemma SeparateInjective(scopes: iset<string>, s1: string, k1: string, s2: string, k2: string)
    requires Separate(scopes) && s1 in scopes && s2 in scopes && Compound(s1, k1) == Compound(s2, k2)
    ensures s1 == s2 && k1 == k2
  {
    CompoundsCollide(s1, s2);
    assert s1 == s2;
    assert k1 == Compound(s1, k1)[|s1| + 1..] && k2 == Compound(s2, k2)[|s2| + 1..];
  }

  /** A compound key holds the record of its own scope and key, if any, in both tables. */
  lemma LookupsAgree(memory: map<string, IdempotencyRecord>, pairs: map<(string, string), IdempotencyRecord>,
                     scopes: iset<string>, scope: string, key: string)
    requires Separate(scopes) && Agree(memory, pairs, scopes) && scope in scopes
    ensures var k := Compound(scope, key);
            && (k in memory <==> (scope, key) in pairs)
            && (k in memory ==> memory[k] == pairs[(scope, key)])
    ensures forall p <- pairs :: Compound(p.0, p.1) == Compound(scope, key) ==> p == (scope, key)
  {
    hide Compound, Separate;
    var k := Compound(scope, key);
    if k in memory { SeparateInjective(scopes, memory[k].scope, memory[k].key, scope, key); }
    forall p <- pairs | Compound(p.0, p.1) == k ensures p == (scope, key) {
      SeparateInjective(scopes, p.0, p.1, scope, key);
    }
  }

  lemma StepsAgree(memory: map<string, IdempotencyRecord>, pairs: map<(string, string), IdempotencyRecord>,
                   scopes: iset<string>, op: Op)
    requires Separate(scopes) && Agree(memory, pairs, scopes) && ScopeOf(op) in scopes
    ensures MemoryStep(memory, op).1 == PairStep(pairs, op).1
    ensures Agree(MemoryStep(memory, op).0, PairStep(pairs, op).0, scopes)
  {
    hide Compound, Separate;
    var (scope, key) := match op case Get(s, k) => (s, k) case Create(r) => (r.scope, r.key);
    LookupsAgree(memory, pairs, scopes, scope, key);
  }

  lemma {:induction false} SeparateAgree(memory: map<string, IdempotencyRecord>,
                                         pairs: map<(string, string), IdempotencyRecord>,
                                         scopes: iset<string>, ops: seq<Op>)
    requires Separate(scopes) && Agree(memory, pairs, scopes) && Within(ops, scopes)
    ensures MemoryRun(memory, ops) == PairRun(pairs, ops)
    decreases ops
  {
    if ops != [] {
      hide Separate, Agree;
      StepsAgree(memory, pairs, scopes, ops[0]);
      SeparateAgree(MemoryStep(memory, ops[0]).0, PairStep(pairs, ops[0]).0, scopes, ops[1..]);
    }
  }

  /** Any two colliding scopes tell the tables apart: the memory table refuses a pair it has never seen. */
  lemma CollisionDisagrees(s: string, t: string) returns (ops: seq<Op>)
    requires s != t && Collide(s, t)
    ensures Within(ops, iset{s, t})
    ensures MemoryRun(map[], ops) == [Stored, Refused] && PairRun(map[], ops) == [Stored, Stored]
  {
    CompoundsCollide(s, t);
    var k1, k2 :| Compound(s, k1) == Compound(t, k2);
    var first, second := IdempotencyRecord(k1, s, "", "", 0), IdempotencyRecord(k2, t, "", "", 0);
    ops := [Create(first), Create(second)];
    assert ops[1..] == [Create(second)];
    var memory, pairs := MemoryStep(map[], Create(first)).0, PairStep(map[], Create(first)).0;
    assert MemoryRun(memory, [Create(second)]) == [Refused];
    assert PairRun(pairs, [Create(second)]) == [Stored];
  }

  /** Compound-key agreement: from empty, the two tables answer every sequence of operations on a set of scopes alike
      exactly when no two scopes of the set collide. */
  lemma TablesAgree(scopes: iset<string>)
    ensures Separate(scopes) <==> forall ops :: Within(ops, scopes) ==> MemoryRun(map[], ops) == PairRun(map[], ops)
  {
    if Separate(scopes) {
      forall ops | Within(ops, scopes) ensures MemoryRun(map[], ops) == PairRun(map[], ops) {
        SeparateAgree(map[], map[], scopes, ops);
      }
    } else {
      var s, t :| s in scopes && t in scopes && s != t && Collide(s, t);
      var ops := CollisionDisagrees(s, t);
      assert Within(ops, scopes);
    }
  }

  /** Scopes without `|` never collide, nor does any set of them. */
  lemma BarFreeSeparate(scopes: iset<string>)
    requires forall s <- scopes :: '|' !in s
    ensures Separate(scopes)
  {
    forall s, t | s in scopes && t in scopes && Collide(s, t) ensures s == t {
      if s + "|" <= t + "|" { BarClosesScope(s, t); } else { BarClosesScope(t, s); }
    }
  }

  // ---------- The service's scopes

  lemma ServiceScopesHaveNoBar(id: string, d: Decision)
    requires '|' !in id
    ensures '|' !in SubmitScope(id) && '|' !in ReviewScope(d, id)
  {
    assert '|' !in "submit:" && '|' !in "approved" && '|' !in "rejected" && '|' !in ":";
  }

  /** The scopes of requests with issued ids. */
  ghost function ServiceScopes(): iset<string> {
    iset id: string, scope: string |
      '|' !in id && scope in [SubmitScope(id), ReviewScope(Approve, id), ReviewScope(Reject, id)] :: scope
  }

  /** For the scopes the service builds, the tables answer every sequence of operations alike, whatever the keys. */
  lemma ServiceTablesAgree(ops: seq<Op>)
    requires Within(ops, ServiceScopes())
    ensures MemoryRun(map[], ops) == PairRun(map[], ops)
  {
    forall scope <- ServiceScopes() ensures '|' !in scope {
      var id: string :| '|' !in id && scope in [SubmitScope(id), ReviewScope(Approve, id), ReviewScope(Reject, id)];
      ServiceScopesHaveNoBar(id, Approve);
      ServiceScopesHaveNoBar(id, Reject);
    }
    BarFreeSeparate(ServiceScopes());
    TablesAgree(ServiceScopes());
  }

  predicate Filed(k: string, record: IdempotencyRecord) {
    '|' !in record.scope && k == Compound(record.scope, record.key)
  }

  ghost predicate TableOk(db: Db) {
    forall k <- db.idempotency :: Filed(k, db.idempotency[k])
  }

  lemma ActFiles(cfg: Config, call: Call, db: Db, input: Input)
    requires TableOk(db) && CallOk(cfg, call, db.requests)
    ensures TableOk(Act(cfg, call, db, input).1)
  {
    hide SubmitScope, ReviewScope, Fingerprint, Compound, AfterReviewKey, RefuseReview, Descends;
    if call.SubmitClaim? {
      ServiceScopesHaveNoBar(call.snap.id, Approve);
    } else if call.ReviewClaim? {
      ServiceScopesHaveNoBar(call.snap.id, call.decision);
    } else {
      hide Act, CallOk;
      KeysStay(cfg, call, db, input);
    }
  }

  lemma {:induction false} RunFiles(cfg: Config, moves: seq<Move>)
    requires cfg.maxAttempts >= 1
    ensures TableOk(Run(cfg, moves).db)
  {
    if moves != [] {
      hide Act, CallOk, Filed;
      var before, move := moves[..|moves| - 1], moves[|moves| - 1];
      RunFiles(cfg, before);
      RunCore(cfg, before);
      var s := Run(cfg, before);
      if move.Stage? && move.pid < |s.calls| {
        ActFiles(cfg, s.calls[move.pid], s.db, Input(s.clock, move.pick, move.outcome));
      }
    }
  }

  /** In every reachable state, whatever keys clients choose, a lookup for a request that exists finds a record exactly
      when one was stored for that very scope and key. */
  lemma LookupsExact(cfg: Config, moves: seq<Move>, id: string, d: Decision, key: string)
    requires cfg.maxAttempts >= 1 && id in Run(cfg, moves).db.requests
    ensures forall scope <- [SubmitScope(id), ReviewScope(d, id)] ::
              var db := Run(cfg, moves).db;
              var found := GetIdempotency(db, scope, key);
              if found.Ok? then found.value.scope == scope && found.value.key == key
              else forall k <- db.idempotency :: db.idempotency[k].scope != scope || db.idempotency[k].key != key
  {
    RunFiles(cfg, moves);
    RowShape(cfg, moves, id);
    RunCore(cfg, moves);
    ServiceScopesHaveNoBar(id, d);
    hide Run, SubmitScope, ReviewScope, Shape;
    var db := Run(cfg, moves).db;
    forall scope <- [SubmitScope(id), ReviewScope(d, id)]
      ensures var found := GetIdempotency(db, scope, key);
              if found.Ok? then found.value.scope == scope && found.value.key == key
              else forall k <- db.idempotency :: db.idempotency[k].scope != scope || db.idempotency[k].key != key
    {
      assert '|' !in scope;
      if Compound(scope, key) in db.idempotency {
        var record := db.idempotency[Compound(scope, key)];
        CompoundInjective(record.scope, record.key, scope, key);
      }
    }
  }
}
