/** Safety of reconciliation over whole runs (FR-REC-1, FR-REC-4, FR-REC-5):
    any sequence of plans with one layout, each difference executed only up to
    an arbitrary operation, keeps the guards that the installed rules need. */
module Runs {
  import opened Model
  import opened Marks
  import opened Configuration
  import opened Planner
  import opened Observed
  import opened Reconcile
  import opened Meaning
  import opened ClassTable
  import Order

  /** The guards that installed rules need: class guards with any lookup rule,
      the main bypass and the balancing rule with the final guard, a source
      rule with a source guard. */
  ghost predicate Safe(l: Layout, rules: set<Rule>)
  {
    && (forall r :: r in rules && IsLookup(r.kind) ==> ClassGuards(l, r.family) <= rules)
    && (forall f :: FinalGuardRule(l, f) in rules ==> MainBypassRule(l, f) in rules && BalanceRule(l, f) in rules)
    && (forall f, a :: SourceGuardRule(l, f, a) in rules ==> exists id :: SourceRule(l, f, id, a) in rules)
  }

  /** A complete rule set: shaped rules, all the common rules of every family
      that has any, and a source rule for every source guard. */
  ghost predicate Whole(l: Layout, rules: set<Rule>)
  {
    && (forall r :: r in rules ==> Shaped(l, r) && CommonRules(l, r.family) <= rules)
    && (forall f, a :: SourceGuardRule(l, f, a) in rules ==> exists id :: SourceRule(l, f, id, a) in rules)
  }

  // --------------------------------------------------------------- orders

  lemma RankFirst(a: seq<int>, b: seq<int>)
    requires |a| > 0 && |b| > 0 && a[0] < b[0]
    ensures !Order.LexLe(b, a)
  {
  }

  /** Keys that first differ at `i`. */
  lemma {:induction false} DifferAt(a: seq<int>, b: seq<int>, i: nat)
    requires i < |a| && i < |b| && a[..i] == b[..i] && a[i] < b[i]
    ensures !Order.LexLe(b, a)
    decreases i
  {
    if i > 0 {
      assert a[0] == a[..i][0] && b[0] == b[..i][0];
      assert a[1..][..i - 1] == a[..i][1..] && b[1..][..i - 1] == b[..i][1..];
      DifferAt(a[1..], b[1..], i - 1);
    }
  }

  lemma ShapedClassified(l: Layout, r: Rule)
    requires Shaped(l, r)
    ensures Classify(l, r.priority) == Some(r.kind)
  {
    ShapeOffset(l, r);
  }

  /** A source rule sorts before its source guard when added. */
  lemma SourceRuleFirst(l: Layout, f: Family, id: UplinkId, a: Ip)
    ensures !Order.LexLe(InstallKey(SourceGuardRule(l, f, a)), InstallKey(SourceRule(l, f, id, a)))
  {
    var g, r := InstallKey(SourceGuardRule(l, f, a)), InstallKey(SourceRule(l, f, id, a));
    assert r[..3] == g[..3];
    DifferAt(r, g, 3);
  }

  /** A source guard sorts before its source rule when deleted. */
  lemma SourceGuardFirst(l: Layout, p: nat, f: Family, id: UplinkId, a: Ip)
    ensures !Order.LexLe(RemovalKey(l, RuleForm(SourceRule(l, f, id, a), p)),
                         RemovalKey(l, RuleForm(SourceGuardRule(l, f, a), p)))
  {
    var g, r := RemovalKey(l, RuleForm(SourceGuardRule(l, f, a), p)), RemovalKey(l, RuleForm(SourceRule(l, f, id, a), p));
    assert g[..4] == r[..4];
    DifferAt(g, r, 4);
  }

  function Taken<T>(v: seq<T>, n: nat): set<T>
    requires n <= |v|
  {
    set i | 0 <= i < n :: v[i]
  }

  /** What sorts before a taken element is taken. */
  lemma TakenBefore<T(!new)>(v: seq<T>, s: set<T>, key: T -> seq<int>, n: nat, x: T, y: T)
    requires n <= |v| && Order.Enumerates(v, s) && Order.SortedBy(v, key)
    requires x in s && y in Taken(v, n) && !Order.LexLe(key(y), key(x))
    ensures x in Taken(v, n)
  {
    var i :| 0 <= i < n && v[i] == y;
    assert x in v;
    var j :| 0 <= j < |v| && v[j] == x;
    Order.SmallerIsEarlier(v, key, j, i);
  }

  // ------------------------------------------------------------- additions

  /** After `n` additions. */
  ghost predicate Adding(l: Layout, k: set<Rule>, d: set<Rule>, adds: seq<Rule>, n: nat, now: set<Rule>)
  {
    && Safe(l, k) && Whole(l, d) && n <= |adds|
    && Order.Enumerates(adds, d - k) && Order.SortedBy(adds, InstallKey)
    && now == k + Taken(adds, n)
  }

  /** A wanted rule that sorts before an added one is there. */
  lemma AddedBefore(l: Layout, k: set<Rule>, d: set<Rule>, adds: seq<Rule>, n: nat, now: set<Rule>, x: Rule, y: Rule)
    requires Adding(l, k, d, adds, n, now) && x in d && y in now && y !in k
    requires !Order.LexLe(InstallKey(y), InstallKey(x))
    ensures x in now
  {
    hide InstallKey, Safe, Whole;
    if x !in k { TakenBefore(adds, d - k, InstallKey, n, x, y); }
  }

  lemma AddedWanted(l: Layout, k: set<Rule>, d: set<Rule>, adds: seq<Rule>, n: nat, now: set<Rule>, y: Rule)
    requires Adding(l, k, d, adds, n, now) && y in now && y !in k
    ensures y in d && Shaped(l, y) && CommonRules(l, y.family) <= d
  {
    hide CommonRules, Shaped, Safe;
    assert y in adds;
  }

  lemma CommonMembers(l: Layout, f: Family)
    ensures ClassGuards(l, f) <= CommonRules(l, f)
    ensures MainBypassRule(l, f) in CommonRules(l, f) && BalanceRule(l, f) in CommonRules(l, f)
    ensures FinalGuardRule(l, f) in CommonRules(l, f)
  {
  }

  lemma GuardRank(l: Layout, f: Family, g: Rule)
    requires g in ClassGuards(l, f)
    ensures InstallRank(g.kind) == 0 && IsClassGuard(g.kind) && g.family == f
  {
    if g in PathGuards(l, f) { PathGuardMember(l, f, g); }
  }

  lemma RankInstallKey(r: Rule)
    ensures |InstallKey(r)| == 6 && InstallKey(r)[0] == InstallRank(r.kind)
  {
  }

  /** Class guards come first. */
  lemma AddingGuards(l: Layout, k: set<Rule>, d: set<Rule>, adds: seq<Rule>, n: nat, now: set<Rule>, y: Rule)
    requires Adding(l, k, d, adds, n, now) && y in now && IsLookup(y.kind)
    ensures ClassGuards(l, y.family) <= now
  {
    hide CommonRules, ClassGuards, Shaped, Whole, InstallKey;
    if y in k {
      assert k <= now;
    } else {
      hide Safe;
      AddedWanted(l, k, d, adds, n, now, y);
      CommonMembers(l, y.family);
      forall g | g in ClassGuards(l, y.family) ensures g in now {
        GuardRank(l, y.family, g);
        RankInstallKey(g);
        RankInstallKey(y);
        RankFirst(InstallKey(g), InstallKey(y));
        AddedBefore(l, k, d, adds, n, now, g, y);
      }
    }
  }

  /** The final guard comes last. */
  lemma AddingFinal(l: Layout, k: set<Rule>, d: set<Rule>, adds: seq<Rule>, n: nat, now: set<Rule>, f: Family)
    requires Adding(l, k, d, adds, n, now) && FinalGuardRule(l, f) in now
    ensures MainBypassRule(l, f) in now && BalanceRule(l, f) in now
  {
    hide CommonRules, ClassGuards, Shaped, Whole, InstallKey;
    var y := FinalGuardRule(l, f);
    if y !in k {
      hide Safe;
      AddedWanted(l, k, d, adds, n, now, y);
      CommonMembers(l, f);
      RankInstallKey(y);
      RankInstallKey(MainBypassRule(l, f));
      RankInstallKey(BalanceRule(l, f));
      RankFirst(InstallKey(MainBypassRule(l, f)), InstallKey(y));
      RankFirst(InstallKey(BalanceRule(l, f)), InstallKey(y));
      AddedBefore(l, k, d, adds, n, now, MainBypassRule(l, f), y);
      AddedBefore(l, k, d, adds, n, now, BalanceRule(l, f), y);
    }
  }

  /** A source guard follows its source rule. */
  lemma AddingSource(l: Layout, k: set<Rule>, d: set<Rule>, adds: seq<Rule>, n: nat, now: set<Rule>, f: Family, a: Ip)
    requires Adding(l, k, d, adds, n, now) && SourceGuardRule(l, f, a) in now
    ensures exists id :: SourceRule(l, f, id, a) in now
  {
    hide CommonRules, ClassGuards, Shaped, InstallKey;
    var y := SourceGuardRule(l, f, a);
    if y !in k {
      hide Safe;
      AddedWanted(l, k, d, adds, n, now, y);
      var id :| SourceRule(l, f, id, a) in d;
      SourceRuleFirst(l, f, id, a);
      AddedBefore(l, k, d, adds, n, now, SourceRule(l, f, id, a), y);
    } else {
      var id :| SourceRule(l, f, id, a) in k;
      assert SourceRule(l, f, id, a) in now;
    }
  }

  /** Every prefix of the additions is safe. */
  lemma AddingSafe(l: Layout, k: set<Rule>, d: set<Rule>, adds: seq<Rule>, n: nat, now: set<Rule>)
    requires Adding(l, k, d, adds, n, now)
    ensures Safe(l, now)
  {
    hide Adding;
    forall r | r in now && IsLookup(r.kind) ensures ClassGuards(l, r.family) <= now {
      AddingGuards(l, k, d, adds, n, now, r);
    }
    forall f | FinalGuardRule(l, f) in now ensures MainBypassRule(l, f) in now && BalanceRule(l, f) in now {
      AddingFinal(l, k, d, adds, n, now, f);
    }
    forall f, a | SourceGuardRule(l, f, a) in now ensures exists id :: SourceRule(l, f, id, a) in now {
      AddingSource(l, k, d, adds, n, now, f, a);
    }
  }

  // ------------------------------------------------------------- deletions

  /** After `n` deletions, all the additions done: `gone` is deleted. */
  ghost predicate Deleting(l: Layout, p: nat, k: set<Rule>, d: set<Rule>, dels: seq<ObservedRule>, n: nat,
                           now: set<Rule>)
  {
    && (forall r :: r in k ==> Shaped(l, r)) && Whole(l, d) && n <= |dels|
    && Order.Enumerates(dels, Forms(k - d, p)) && Order.SortedBy(dels, o => RemovalKey(l, o))
    && (forall r :: r in now <==> r in k + d && RuleForm(r, p) !in Taken(dels, n))
  }

  function Forms(rules: set<Rule>, p: nat): set<ObservedRule> { set r | r in rules :: RuleForm(r, p) }

  /** Shaped rules are told apart by what the kernel reports. */
  lemma FormInjective(l: Layout, p: nat, x: Rule, y: Rule)
    requires Shaped(l, x) && Shaped(l, y) && RuleForm(x, p) == RuleForm(y, p)
    ensures x == y
  {
    hide Shaped;
    ShapedClassified(l, x);
    ShapedClassified(l, y);
    assert x.source == y.source by {
      match x.source case None => case Some(_) => match y.source case None => case Some(_) =>
    }
    assert x.action == y.action by {
      match x.action case Lookup(_) => case LookupMainSuppressDefault => case Unreachable =>
    }
  }

  /** A rule that is gone was not wanted. */
  lemma GoneUnwanted(l: Layout, p: nat, k: set<Rule>, d: set<Rule>, dels: seq<ObservedRule>, n: nat, now: set<Rule>,
                     x: Rule)
    requires Deleting(l, p, k, d, dels, n, now) && x in k + d && x !in now
    ensures x in k && x !in d && RuleForm(x, p) in Taken(dels, n)
  {
    hide Shaped, CommonRules;
    var o := RuleForm(x, p);
    assert o in dels;
    var y :| y in k - d && RuleForm(y, p) == o;
    FormInjective(l, p, x, y);
  }

  /** An unwanted rule that sorts before one that is gone is gone too. */
  lemma GoneBefore(l: Layout, p: nat, k: set<Rule>, d: set<Rule>, dels: seq<ObservedRule>, n: nat, now: set<Rule>,
                   x: Rule, y: Rule)
    requires Deleting(l, p, k, d, dels, n, now) && x in k - d && y in k + d && y !in now
    requires !Order.LexLe(RemovalKey(l, RuleForm(y, p)), RemovalKey(l, RuleForm(x, p)))
    ensures x !in now
  {
    GoneUnwanted(l, p, k, d, dels, n, now, y);
    hide RemovalKey, Shaped, CommonRules;
    TakenBefore(dels, Forms(k - d, p), o => RemovalKey(l, o), n, RuleForm(x, p), RuleForm(y, p));
  }

  lemma FormRank(l: Layout, p: nat, r: Rule)
    requires Shaped(l, r)
    ensures RemovalKey(l, RuleForm(r, p))[0] == RemovalRank(Some(r.kind))
  {
    hide Shaped;
    ShapedClassified(l, r);
  }

  lemma WholeFamily(l: Layout, d: set<Rule>, r: Rule)
    requires Whole(l, d) && r in d
    ensures CommonRules(l, r.family) <= d && ClassGuards(l, r.family) <= d
  {
    hide CommonRules;
    CommonMembers(l, r.family);
  }

  /** Class guards go last. */
  lemma DeletingGuards(l: Layout, p: nat, k: set<Rule>, d: set<Rule>, dels: seq<ObservedRule>, n: nat, now: set<Rule>,
                       y: Rule)
    requires Deleting(l, p, k, d, dels, n, now) && Safe(l, k + d) && y in now && IsLookup(y.kind)
    ensures ClassGuards(l, y.family) <= now
  {
    hide CommonRules, ClassGuards, Shaped, RemovalKey;
    assert ClassGuards(l, y.family) <= k + d;
    assert Shaped(l, y);
    forall g | g in ClassGuards(l, y.family) ensures g in now {
      if g !in now {
        GoneUnwanted(l, p, k, d, dels, n, now, g);
        GuardRank(l, y.family, g);
        if y in d {
          WholeFamily(l, d, y);
          assert false;
        }
        FormRank(l, p, y);
        FormRank(l, p, g);
        FormKeyLength(l, p, y);
        FormKeyLength(l, p, g);
        RankFirst(RemovalKey(l, RuleForm(y, p)), RemovalKey(l, RuleForm(g, p)));
        GoneBefore(l, p, k, d, dels, n, now, y, g);
        assert false;
      }
    }
  }

  lemma FormKeyLength(l: Layout, p: nat, r: Rule)
    ensures |RemovalKey(l, RuleForm(r, p))| == 7
  {
  }

  /** The final guard goes first. */
  lemma DeletingFinal(l: Layout, p: nat, k: set<Rule>, d: set<Rule>, dels: seq<ObservedRule>, n: nat, now: set<Rule>,
                      f: Family, x: Rule)
    requires Deleting(l, p, k, d, dels, n, now) && Safe(l, k + d) && FinalGuardRule(l, f) in now
    requires x == MainBypassRule(l, f) || x == BalanceRule(l, f)
    ensures x in now
  {
    hide CommonRules, ClassGuards, RemovalKey, Whole;
    var y := FinalGuardRule(l, f);
    assert x in k + d;
    if x !in now {
      hide Safe;
      GoneUnwanted(l, p, k, d, dels, n, now, x);
      if y in d {
        WholeFamily(l, d, y);
        CommonMembers(l, f);
        assert false;
      }
      FormRank(l, p, y);
      FormRank(l, p, x);
      FormKeyLength(l, p, y);
      FormKeyLength(l, p, x);
      RankFirst(RemovalKey(l, RuleForm(y, p)), RemovalKey(l, RuleForm(x, p)));
      GoneBefore(l, p, k, d, dels, n, now, y, x);
      assert false;
    }
  }

  /** A source guard goes before its source rules. */
  lemma DeletingSource(l: Layout, p: nat, k: set<Rule>, d: set<Rule>, dels: seq<ObservedRule>, n: nat, now: set<Rule>,
                       f: Family, a: Ip)
    requires Deleting(l, p, k, d, dels, n, now) && Safe(l, k + d) && SourceGuardRule(l, f, a) in now
    ensures exists id :: SourceRule(l, f, id, a) in now
  {
    hide CommonRules, ClassGuards, Shaped, RemovalKey;
    var g := SourceGuardRule(l, f, a);
    if g in d {
      var id :| SourceRule(l, f, id, a) in d;
      hide Safe;
      if SourceRule(l, f, id, a) !in now {
        GoneUnwanted(l, p, k, d, dels, n, now, SourceRule(l, f, id, a));
        assert false;
      }
    } else {
      var id :| SourceRule(l, f, id, a) in k + d;
      hide Safe;
      if SourceRule(l, f, id, a) !in now {
        SourceGuardFirst(l, p, f, id, a);
        GoneBefore(l, p, k, d, dels, n, now, g, SourceRule(l, f, id, a));
        assert false;
      }
    }
  }

  /** Every prefix of the deletions is safe. */
  lemma DeletingSafe(l: Layout, p: nat, k: set<Rule>, d: set<Rule>, dels: seq<ObservedRule>, n: nat, now: set<Rule>)
    requires Deleting(l, p, k, d, dels, n, now) && Safe(l, k + d)
    ensures Safe(l, now)
  {
    hide Deleting;
    forall r | r in now && IsLookup(r.kind) ensures ClassGuards(l, r.family) <= now {
      DeletingGuards(l, p, k, d, dels, n, now, r);
    }
    forall f | FinalGuardRule(l, f) in now ensures MainBypassRule(l, f) in now && BalanceRule(l, f) in now {
      DeletingFinal(l, p, k, d, dels, n, now, f, MainBypassRule(l, f));
      DeletingFinal(l, p, k, d, dels, n, now, f, BalanceRule(l, f));
    }
    forall f, a | SourceGuardRule(l, f, a) in now ensures exists id :: SourceRule(l, f, id, a) in now {
      DeletingSource(l, p, k, d, dels, n, now, f, a);
    }
  }
}
