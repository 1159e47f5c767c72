/** Runs of the reconciler on the observed system: from a kernel without
    PolyWAN's rules, through any plans of one layout, each pass executed up to
    any operation, the guards hold and no packet leaks. */
module RunSafety {
  import opened Model
  import opened Marks
  import opened Configuration
  import opened Planner
  import opened Observed
  import opened Reconcile
  import opened Meaning
  import opened ClassTable
  import opened Runs
  import Order

  // ------------------------------------------------- operations on the rules

  function RulesAfter(rules: set<ObservedRule>, ops: seq<Op>, p: nat): set<ObservedRule>
  {
    if ops == [] then rules else RuleStep(RulesAfter(rules, ops[..|ops| - 1], p), ops[|ops| - 1], p)
  }

  lemma {:induction false} RunRules(s: Scope, p: nat, sys: System, ops: seq<Op>)
    ensures Run(s, p, sys, ops).rules == RulesAfter(sys.rules, ops, p)
    decreases |ops|
  {
    if ops != [] { RunRules(s, p, sys, ops[..|ops| - 1]); }
  }

  function AddStart(g: Segments): nat { |g.early| + |g.withdrawals| }

  function DeleteStart(g: Segments): nat { AddStart(g) + |g.adds| + (if g.nft then 1 else 0) + |g.late| }

  predicate TouchesRules(op: Op) { op.AddRule? || op.DeleteRule? }

  /** Which operation is at position `n`. */
  lemma OpAt(g: Segments, p: nat, n: nat)
    requires n < |OpsOf(g, p)|
    ensures AddStart(g) <= n < AddStart(g) + |g.adds| ==> OpsOf(g, p)[n] == AddRule(g.adds[n - AddStart(g)])
    ensures DeleteStart(g) <= n < DeleteStart(g) + |g.deletes| ==>
              OpsOf(g, p)[n] == DeleteRule(g.deletes[n - DeleteStart(g)])
    ensures !(AddStart(g) <= n < AddStart(g) + |g.adds|) && !(DeleteStart(g) <= n < DeleteStart(g) + |g.deletes|)
            ==> !TouchesRules(OpsOf(g, p)[n])
  {
    var before, nft := BeforeNft(g, p), if g.nft then [ApplyNft] else [];
    assert OpsOf(g, p) == before + (nft + AfterNft(g, p));
    if n < |before| {
      assert OpsOf(g, p)[n] == before[n];
    } else if n < |before| + |nft| {
      assert OpsOf(g, p)[n] == ApplyNft;
    } else {
      assert OpsOf(g, p)[n] == AfterNft(g, p)[n - |before| - |nft|];
    }
  }

  function Count(n: nat, start: nat, size: nat): nat
  {
    if n < start then 0 else if n - start > size then size else n - start
  }

  /** After `n` operations: some additions, and deletions only after all of them. */
  lemma {:induction false} PrefixRules(g: Segments, p: nat, rules: set<ObservedRule>, n: nat)
    requires n <= |OpsOf(g, p)|
    ensures var i, j := Count(n, AddStart(g), |g.adds|), Count(n, DeleteStart(g), |g.deletes|);
            && (j > 0 ==> i == |g.adds|)
            && RulesAfter(rules, OpsOf(g, p)[..n], p) == rules + Forms(Taken(g.adds, i), p) - Taken(g.deletes, j)
    decreases n
  {
    hide OpsOf, RuleForm;
    if n > 0 {
      var ops := OpsOf(g, p);
      PrefixRules(g, p, rules, n - 1);
      OpAt(g, p, n - 1);
      assert ops[..n][..n - 1] == ops[..n - 1];
      assert ops[..n][n - 1] == ops[n - 1];
    }
  }

  // ------------------------------------------------------ one pass, any prefix

  /** PolyWAN's rules in the system are the reported forms of `k`. */
  ghost predicate Represents(sys: System, l: Layout, p: nat, k: set<Rule>)
  {
    OwnRules(sys, l, p) == Forms(k, p) && forall r :: r in k ==> Shaped(l, r)
  }

  lemma ShapedOwned(l: Layout, r: Rule)
    requires Shaped(l, r)
    ensures OwnsPriority(l, r.priority)
  {
    hide Shaped;
    ShapeOffset(l, r);
  }

  /** The part of the difference that concerns rules. */
  ghost predicate RuleDiff(d: DiffInput, k: set<Rule>, g: Segments)
  {
    && Order.Enumerates(g.adds, d.desired.rules - k) && Order.SortedBy(g.adds, InstallKey)
    && Order.Enumerates(g.deletes, Forms(k - d.desired.rules, d.protocol))
    && Order.SortedBy(g.deletes, o => RemovalKey(d.layout, o))
  }

  /** Every family with wanted rules is managed. */
  ghost predicate ManagedOnly(d: DiffInput) { forall r :: r in d.desired.rules ==> r.family in d.families }

  lemma DiffOfRules(sys: System, d: DiffInput, k: set<Rule>, g: Segments)
    requires IsDiff(sys, d, g) && ManagedOnly(d)
    requires Represents(sys, d.layout, d.protocol, k) && Whole(d.layout, d.desired.rules)
    ensures RuleDiff(d, k, g)
  {
    hide Shaped, CommonRules, InstallKey, RemovalKey, Order.SortedBy, SourceGuardRule, SourceRule;
    hide EarlyReplacements, EarlyTables, WithdrawnTables, LateReplacements, LateTables;
    var l, p, w := d.layout, d.protocol, d.desired.rules;
    assert forall r :: r in w + k ==> Shaped(l, r);
    forall r | r in w ensures RuleForm(r, p) in Forms(k, p) <==> r in k {
      FormOfKnown(l, p, k, r);
    }
    assert Additions(sys, d) == w - k;
    forall o ensures o in Deletions(sys, d) <==> o in Forms(k - w, p) {
      if o in Forms(k, p) {
        var r :| r in k && RuleForm(r, p) == o;
        FormOfKnown(l, p, w, r);
        assert (exists x :: x in w && Is(o, x, p)) <==> o in Forms(w, p);
        FormOfKnown(l, p, k - w, r);
      }
    }
    assert Deletions(sys, d) == Forms(k - w, p);
  }

  lemma FormOfKnown(l: Layout, p: nat, k: set<Rule>, r: Rule)
    requires Shaped(l, r) && forall x :: x in k ==> Shaped(l, x)
    ensures RuleForm(r, p) in Forms(k, p) <==> r in k
  {
    hide Shaped, RuleForm;
    if RuleForm(r, p) in Forms(k, p) {
      var x :| x in k && RuleForm(x, p) == RuleForm(r, p);
      FormInjective(l, p, x, r);
    }
  }

  /** The rules after `i` additions and `j` deletions. */
  function Remaining(k: set<Rule>, p: nat, g: Segments, i: nat, j: nat): set<Rule>
    requires i <= |g.adds| && j <= |g.deletes|
  {
    set r | r in k + Taken(g.adds, i) && RuleForm(r, p) !in Taken(g.deletes, j)
  }

  lemma TakenAll<T(!new)>(v: seq<T>, s: set<T>)
    requires Order.Enumerates(v, s)
    ensures Taken(v, |v|) == s
  {
    forall x ensures x in Taken(v, |v|) <==> x in s {
      assert x in v <==> x in s;
    }
  }

  lemma RemainingSafe(d: DiffInput, k: set<Rule>, g: Segments, i: nat, j: nat)
    requires Safe(d.layout, k) && Whole(d.layout, d.desired.rules) && RuleDiff(d, k, g)
    requires forall r :: r in k ==> Shaped(d.layout, r)
    requires i <= |g.adds| && j <= |g.deletes| && (j > 0 ==> i == |g.adds|)
    ensures Safe(d.layout, Remaining(k, d.protocol, g, i, j))
    ensures forall r :: r in Remaining(k, d.protocol, g, i, j) ==> Shaped(d.layout, r)
  {
    hide Safe, Shaped, CommonRules, InstallKey, RemovalKey, Order.SortedBy, RuleForm, SourceGuardRule, SourceRule;
    var l, w, now := d.layout, d.desired.rules, Remaining(k, d.protocol, g, i, j);
    forall r | r in now && r !in k ensures Shaped(l, r) {
      assert r in g.adds;
    }
    AddingSafe(l, k, w, g.adds, i, k + Taken(g.adds, i));
    if j == 0 {
      assert now == k + Taken(g.adds, i);
    } else {
      TakenAll(g.adds, w - k);
      assert k + Taken(g.adds, i) == k + w;
      DeletingSafe(l, d.protocol, k, w, g.deletes, j, now);
    }
  }

  lemma RemainingRepresents(sys: System, sys': System, d: DiffInput, k: set<Rule>, g: Segments, i: nat, j: nat)
    requires Represents(sys, d.layout, d.protocol, k) && RuleDiff(d, k, g)
    requires forall r :: r in d.desired.rules ==> Shaped(d.layout, r)
    requires i <= |g.adds| && j <= |g.deletes|
    requires sys'.rules == sys.rules + Forms(Taken(g.adds, i), d.protocol) - Taken(g.deletes, j)
    ensures OwnRules(sys', d.layout, d.protocol) == Forms(Remaining(k, d.protocol, g, i, j), d.protocol)
  {
    hide Shaped, InstallKey, RemovalKey, Order.SortedBy;
    var l, p := d.layout, d.protocol;
    forall r | r in Taken(g.adds, i) ensures OwnsPriority(l, r.priority) {
      assert r in g.adds;
      ShapedOwned(l, r);
    }
    var now := Remaining(k, p, g, i, j);
    forall o ensures o in OwnRules(sys', l, p) <==> o in Forms(now, p) {
      if o in OwnRules(sys', l, p) {
        if o in sys.rules {
          assert o in Forms(k, p);
          var r :| r in k && o == RuleForm(r, p);
          assert r in now;
        } else {
          var r :| r in Taken(g.adds, i) && o == RuleForm(r, p);
          assert r in now;
        }
      }
      if o in Forms(now, p) {
        var r :| r in now && o == RuleForm(r, p);
        if r in k {
          assert o in Forms(k, p);
        } else {
          assert OwnsPriority(l, r.priority);
        }
      }
    }
  }

  /** A pass executed up to any operation keeps the guards. */
  lemma PassSafe(s: Scope, sys: System, d: DiffInput, k: set<Rule>, g: Segments, n: nat) returns (k': set<Rule>)
    requires IsDiff(sys, d, g) && ManagedOnly(d) && Whole(d.layout, d.desired.rules)
    requires Represents(sys, d.layout, d.protocol, k) && Safe(d.layout, k)
    requires n <= |OpsOf(g, d.protocol)|
    ensures Represents(Run(s, d.protocol, sys, OpsOf(g, d.protocol)[..n]), d.layout, d.protocol, k')
    ensures Safe(d.layout, k')
  {
    hide IsDiff, Safe, Shaped, CommonRules, RuleDiff, OpsOf, OwnRules, SourceGuardRule, SourceRule;
    DiffOfRules(sys, d, k, g);
    PrefixRules(g, d.protocol, sys.rules, n);
    var i, j := Count(n, AddStart(g), |g.adds|), Count(n, DeleteStart(g), |g.deletes|);
    var sys' := Run(s, d.protocol, sys, OpsOf(g, d.protocol)[..n]);
    RunRules(s, d.protocol, sys, OpsOf(g, d.protocol)[..n]);
    k' := Remaining(k, d.protocol, g, i, j);
    RemainingSafe(d, k, g, i, j);
    RemainingRepresents(sys, sys', d, k, g, i, j);
  }

  // ----------------------------------------------------------- planned rules

  /** What the planner wants is whole. */
  lemma PlannedWhole(cfg: Config, input: Input)
    ensures Whole(cfg.layout, Plan(cfg, input).rules)
  {
    hide FamilyRules, Described, CommonRules, Complete, LocalsOf, Shaped;
    var l, rules := cfg.layout, Plan(cfg, input).rules;
    forall r | r in rules
      ensures Shaped(l, r) && r in FamilyRules(cfg, r.family, input) && CommonRules(l, r.family) <= rules
    {
      FamilyWhole(cfg, input, if r in FamilyRules(cfg, V4, input) then V4 else V6, r);
    }
    forall f, a | SourceGuardRule(l, f, a) in rules ensures exists id :: SourceRule(l, f, id, a) in rules {
      assert SourceGuardRule(l, f, a).family == f;
      SourceWhole(cfg, input, f, a);
      var id :| SourceRule(l, f, id, a) in FamilyRules(cfg, f, input);
      assert SourceRule(l, f, id, a) in rules by { match f case V4 => case V6 => }
    }
  }

  lemma FamilyWhole(cfg: Config, input: Input, f: Family, r: Rule)
    requires r in FamilyRules(cfg, f, input)
    ensures r.family == f && Shaped(cfg.layout, r)
    ensures Manages(cfg, f) && CommonRules(cfg.layout, f) <= FamilyRules(cfg, f, input)
  {
    hide CommonRules, UplinkRules, AddressRules, FamilyRules, LocalsOf;
    PlannedRule(cfg, input, f, r);
    PlannedComplete(cfg, input, f);
  }

  lemma SourceWhole(cfg: Config, input: Input, f: Family, a: Ip)
    requires SourceGuardRule(cfg.layout, f, a) in FamilyRules(cfg, f, input)
    ensures exists id :: SourceRule(cfg.layout, f, id, a) in FamilyRules(cfg, f, input)
  {
    hide CommonRules, UplinkRules, FamilyRules, LocalsOf;
    var local := LocalsOf(cfg, input, f);
    PlannedRule(cfg, input, f, SourceGuardRule(cfg.layout, f, a));
    PlannedComplete(cfg, input, f);
    var id :| id in local && a in local[id];
    assert SourceRule(cfg.layout, f, id, a) in AddressRules(cfg.layout, f, id, local[id]);
  }

  // ------------------------------------------------------------- whole runs

  /** One pass: a plan of the layout, any state before the nftables step, and
      the number of operations executed. */
  datatype Pass = Pass(cfg: Config, input: Input, before: Desired, nftPending: bool, diff: Segments, done: nat)

  function PassInput(q: Pass, p: nat): DiffInput
  {
    DiffInput(q.cfg.layout, p, (set f | f in FAMILIES && Manages(q.cfg, f)), q.before, Plan(q.cfg, q.input),
              q.nftPending)
  }

  ghost predicate PassTo(s: Scope, l: Layout, p: nat, sys: System, q: Pass, sys': System)
  {
    && q.cfg.layout == l
    && IsDiff(sys, PassInput(q, p), q.diff)
    && q.done <= |OpsOf(q.diff, p)|
    && sys' == Run(s, p, sys, OpsOf(q.diff, p)[..q.done])
  }

  /** A run from a kernel without PolyWAN's rules. */
  ghost predicate IsRun(s: Scope, l: Layout, p: nat, trace: seq<System>, passes: seq<Pass>)
  {
    && |trace| == |passes| + 1
    && OwnRules(trace[0], l, p) == {}
    && forall i :: 0 <= i < |passes| ==> PassTo(s, l, p, trace[i], passes[i], trace[i + 1])
  }

  lemma OnePass(s: Scope, l: Layout, p: nat, sys: System, q: Pass, sys': System, k: set<Rule>)
    returns (k': set<Rule>)
    requires PassTo(s, l, p, sys, q, sys') && Represents(sys, l, p, k) && Safe(l, k)
    ensures Represents(sys', l, p, k') && Safe(l, k')
  {
    hide Represents, Safe, IsDiff, Whole, OpsOf, FamilyRules, FamilyRoutes, Manages;
    PlannedWhole(q.cfg, q.input);
    var d := PassInput(q, p);
    forall r | r in d.desired.rules ensures r.family in d.families {
      FamilyWhole(q.cfg, q.input, if r in FamilyRules(q.cfg, V4, q.input) then V4 else V6, r);
    }
    k' := PassSafe(s, sys, d, k, q.diff, q.done);
  }

  lemma {:induction false} RunRepresents(s: Scope, l: Layout, p: nat, trace: seq<System>, passes: seq<Pass>, i: nat)
    returns (k: set<Rule>)
    requires IsRun(s, l, p, trace, passes) && i < |trace|
    ensures Represents(trace[i], l, p, k) && Safe(l, k)
    decreases i
  {
    hide OwnRules, PassTo;
    if i == 0 {
      k := {};
    } else {
      k := RunRepresents(s, l, p, trace, passes, i - 1);
      k := OnePass(s, l, p, trace[i - 1], passes[i - 1], trace[i], k);
    }
  }

  predicate Held(sys: System, r: Rule, p: nat) { RuleForm(r, p) in sys.rules }

  /** The guards, read off the observed rules. */
  ghost predicate GuardsHold(sys: System, l: Layout, p: nat)
  {
    && (forall r, g :: Shaped(l, r) && IsLookup(r.kind) && Held(sys, r, p) && g in ClassGuards(l, r.family) ==>
          Held(sys, g, p))
    && (forall f :: Held(sys, FinalGuardRule(l, f), p) ==>
          Held(sys, MainBypassRule(l, f), p) && Held(sys, BalanceRule(l, f), p))
    && (forall f, a :: Held(sys, SourceGuardRule(l, f, a), p) ==> exists id :: Held(sys, SourceRule(l, f, id, a), p))
  }

  lemma HeldIsMember(sys: System, l: Layout, p: nat, k: set<Rule>, r: Rule)
    requires Represents(sys, l, p, k) && Shaped(l, r)
    ensures Held(sys, r, p) <==> r in k
  {
    hide Shaped;
    ShapedOwned(l, r);
    FormOfKnown(l, p, k, r);
  }

  lemma GuardShaped(l: Layout, f: Family, g: Rule)
    requires g in ClassGuards(l, f)
    ensures Shaped(l, g)
  {
    if g in PathGuards(l, f) { PathGuardMember(l, f, g); }
  }

  lemma SafeHolds(sys: System, l: Layout, p: nat, k: set<Rule>)
    requires Represents(sys, l, p, k) && Safe(l, k)
    ensures GuardsHold(sys, l, p)
  {
    hide Represents, Held, ClassGuards;
    forall r, g | Shaped(l, r) && IsLookup(r.kind) && Held(sys, r, p) && g in ClassGuards(l, r.family)
      ensures Held(sys, g, p)
    {
      hide Shaped;
      HeldIsMember(sys, l, p, k, r);
      GuardShaped(l, r.family, g);
      HeldIsMember(sys, l, p, k, g);
    }
    forall f | Held(sys, FinalGuardRule(l, f), p)
      ensures Held(sys, MainBypassRule(l, f), p) && Held(sys, BalanceRule(l, f), p)
    {
      HeldIsMember(sys, l, p, k, FinalGuardRule(l, f));
      HeldIsMember(sys, l, p, k, MainBypassRule(l, f));
      HeldIsMember(sys, l, p, k, BalanceRule(l, f));
    }
    forall f, a | Held(sys, SourceGuardRule(l, f, a), p) ensures exists id :: Held(sys, SourceRule(l, f, id, a), p) {
      HeldIsMember(sys, l, p, k, SourceGuardRule(l, f, a));
      var id :| SourceRule(l, f, id, a) in k;
      HeldIsMember(sys, l, p, k, SourceRule(l, f, id, a));
    }
  }

  /** Whole-run safety: in every state of every run the guards hold. */
  lemma RunKeepsGuards(s: Scope, l: Layout, p: nat, trace: seq<System>, passes: seq<Pass>, i: nat)
    requires IsRun(s, l, p, trace, passes) && i < |trace|
    ensures GuardsHold(trace[i], l, p)
  {
    hide Represents, Safe, GuardsHold, IsRun;
    var k := RunRepresents(s, l, p, trace, passes, i);
    SafeHolds(trace[i], l, p, k);
  }

  // --------------------------------------------------------------- no leaks

  /** What a class may be answered while the rules are only partly there. */
  predicate Confined(l: Layout, field: FieldValue, o: Verdict)
  {
    var id, class_ := field % 64, field / 64;
    && (class_ == CLASS_PROBE ==> o in {ViaTable(l.tableBase + id), Rejected, PassedOn})
    && (class_ == CLASS_PATH && field != 0 ==> o in {ViaMain, ViaTable(l.tableBase + id), Rejected, PassedOn})
    && (class_ == CLASS_POLICY_BLOCK ==> o in {ViaMain, ViaTable(l.tableBase + 128 + id), Rejected, PassedOn})
  }

  predicate Guarded(field: FieldValue) { field != 0 && field / 64 != CLASS_POLICY_BALANCE }

  /** With its class guards, every guarded class is stopped by its guard. */
  lemma GuardStops(l: Layout, k: set<Rule>, q: Rule, p: Packet, t: Tables)
    requires ClassGuards(l, p.family) <= k && Precedes(q, k, p, t) && Shaped(l, q)
    requires Guarded(Field(l.shift, p.mark))
    ensures var n, class_ := Offset(q.kind), Field(l.shift, p.mark) / 64;
            n <= if class_ == CLASS_PROBE then 64 else if class_ == CLASS_PATH then 264 else 464
  {
    GuardMembers(l, p.family);
    if Field(l.shift, p.mark) / 64 == CLASS_PATH {
      var g := SomePathGuardRejects(l, k, p, t);
      PathGuardMember(l, p.family, g);
      ShapeOffset(l, q);
    } else {
      hide ClassGuards, Precedes;
      GuardKinds(l, p.family);
      if Field(l.shift, p.mark) / 64 == CLASS_PROBE {
        NotAfter(l, k, q, ProbeGuardRule(l, p.family), p, t);
      } else {
        NotAfter(l, k, q, PolicyBlockGuardRule(l, p.family), p, t);
      }
    }
  }

  ghost predicate AnyLookup(k: set<Rule>, f: Family) { exists r :: r in k && r.family == f && IsLookup(r.kind) }

  /** Safe rules confine every guarded class to its own table: a pinned packet
      is never moved to another uplink, and it only passes PolyWAN's rules
      while the family has no lookup rule at all. */
  lemma SafeConfines(l: Layout, k: set<Rule>, v: seq<Rule>, p: Packet, t: Tables)
    requires Safe(l, k) && (forall r :: r in k ==> Shaped(l, r)) && Lists(v, k)
    requires Guarded(Field(l.shift, p.mark))
    ensures Confined(l, Field(l.shift, p.mark), Evaluate(v, p, t))
    ensures Evaluate(v, p, t) == PassedOn ==> !AnyLookup(k, p.family)
  {
    hide ClassGuards, Shaped, KindDecision, Guarded, Confined, Lists;
    var d := Decider(v, k, p, t);
    if AnyLookup(k, p.family) {
      assert ClassGuards(l, p.family) <= k;
      hide Safe;
      GuardsDecide(l, k, p, t);
      DecisionByField(l, d.value, p, t);
      GuardStops(l, k, d.value, p, t);
      KindConfined(l, d.value, p, t, Evaluate(v, p, t));
    } else {
      hide Safe;
      if d.Some? {
        assert !IsLookup(d.value.kind);
        DecisionByField(l, d.value, p, t);
        GuardRejects(l, d.value, p, t);
      }
      AlwaysConfined(l, Field(l.shift, p.mark));
    }
  }

  /** A deciding rule not after the guard of the class is one of the class. */
  lemma KindConfined(l: Layout, q: Rule, p: Packet, t: Tables, o: Verdict)
    requires KindDecision(l, q, Field(l.shift, p.mark), p, t) == Some(o) && Guarded(Field(l.shift, p.mark))
    requires var n, class_ := Offset(q.kind), Field(l.shift, p.mark) / 64;
             n <= if class_ == CLASS_PROBE then 64 else if class_ == CLASS_PATH then 264 else 464
    ensures Confined(l, Field(l.shift, p.mark), o) && o != PassedOn
  {
  }

  lemma GuardRejects(l: Layout, q: Rule, p: Packet, t: Tables)
    requires !IsLookup(q.kind) && KindDecision(l, q, Field(l.shift, p.mark), p, t).Some?
    ensures KindDecision(l, q, Field(l.shift, p.mark), p, t) == Some(Rejected)
  {
  }

  lemma AlwaysConfined(l: Layout, field: FieldValue)
    ensures Confined(l, field, Rejected) && Confined(l, field, PassedOn)
  {
  }

  lemma GuardsDecide(l: Layout, k: set<Rule>, p: Packet, t: Tables)
    requires ClassGuards(l, p.family) <= k && Guarded(Field(l.shift, p.mark))
    ensures exists r :: r in k && Decision(r, p, t).Some?
  {
    GuardMembers(l, p.family);
    if Field(l.shift, p.mark) / 64 == CLASS_PATH {
      var g := SomePathGuardRejects(l, k, p, t);
    } else {
      hide ClassGuards;
      GuardKinds(l, p.family);
      DecisionByField(l, ProbeGuardRule(l, p.family), p, t);
      DecisionByField(l, PolicyBlockGuardRule(l, p.family), p, t);
    }
  }

  /** Traffic from an address whose source guard is there leaves through a
      path with a source rule for it, or is rejected. */
  lemma SourceConfines(l: Layout, k: set<Rule>, v: seq<Rule>, p: Packet, t: Tables)
    requires (forall r :: r in k ==> Shaped(l, r)) && Lists(v, k)
    requires Field(l.shift, p.mark) == 0 && SourceGuardRule(l, p.family, p.source) in k
    ensures Evaluate(v, p, t) in {ViaMain, Rejected}
         || exists id :: SourceRule(l, p.family, id, p.source) in k && Evaluate(v, p, t) == ViaTable(PathTable(l, id))
  {
    var d := Decider(v, k, p, t);
    var g := SourceGuardRule(l, p.family, p.source);
    DecisionByField(l, g, p, t);
    var q := d.value;
    DecisionByField(l, q, p, t);
    hide Decision;
    ShapeOffset(l, q);
    if q.kind.SourceLookup? {
      assert q == SourceRule(l, p.family, q.kind.id, p.source);
    }
  }

  /** In every state of every run, walking the installed rules confines every
      guarded class; once the final guard is there nothing passes it. */
  lemma RunConfines(s: Scope, l: Layout, p: nat, trace: seq<System>, passes: seq<Pass>, i: nat)
    returns (k: set<Rule>)
    requires IsRun(s, l, p, trace, passes) && i < |trace|
    ensures Represents(trace[i], l, p, k)
    ensures forall v, pkt: Packet, t :: Lists(v, k) && Guarded(Field(l.shift, pkt.mark)) ==>
              && Confined(l, Field(l.shift, pkt.mark), Evaluate(v, pkt, t))
              && (Evaluate(v, pkt, t) == PassedOn ==> !AnyLookup(k, pkt.family))
    ensures forall v, pkt: Packet, t :: Lists(v, k) && FinalGuardRule(l, pkt.family) in k ==>
              Evaluate(v, pkt, t) != PassedOn
  {
    hide IsRun, Safe, Lists, Shaped, Guarded, Confined, AnyLookup;
    k := RunRepresents(s, l, p, trace, passes, i);
    forall v, pkt: Packet, t: Tables | Lists(v, k) && Guarded(Field(l.shift, pkt.mark))
      ensures Confined(l, Field(l.shift, pkt.mark), Evaluate(v, pkt, t))
      ensures Evaluate(v, pkt, t) == PassedOn ==> !AnyLookup(k, pkt.family)
    {
      SafeConfines(l, k, v, pkt, t);
    }
    forall v, pkt: Packet, t: Tables | Lists(v, k) && FinalGuardRule(l, pkt.family) in k
      ensures Evaluate(v, pkt, t) != PassedOn
    {
      FinalStops(l, k, v, pkt, t);
    }
  }

  lemma FinalStops(l: Layout, k: set<Rule>, v: seq<Rule>, p: Packet, t: Tables)
    requires Lists(v, k) && FinalGuardRule(l, p.family) in k
    ensures Evaluate(v, p, t) != PassedOn
  {
    var d := Decider(v, k, p, t);
    assert Decision(FinalGuardRule(l, p.family), p, t) == Some(Rejected);
    assert Decision(d.value, p, t) == Some(Evaluate(v, p, t));
  }
}
