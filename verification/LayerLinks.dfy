/**
 The hard links of a layer, which are created after every other entry: a link is
 created once its target is a file, so the pending list is passed over until it is
 empty or a pass creates nothing.
 */
module LayerLinks {
  import opened Wrappers
  import opened LayerModel
  import opened LayerOverlay
  import opened LayerPaths
  import opened LayerMembers

  /** A pending link: where it goes, and the staging path it names. */
  datatype Pending = Pending(path: Path, target: Path)

  function Targets(pending: seq<Pending>): map<Path, Path> {
    if pending == [] then map[]
    else Targets(pending[..|pending| - 1])[pending[|pending| - 1].path := pending[|pending| - 1].target]
  }

  /** The file a path leads to in at most `n` hops over links that are still to be made. */
  function Chain(t: Tree, m: map<Path, Path>, p: Path, n: nat): Option<string>
    decreases n
  {
    if p in t then (if t[p].File? then Some(t[p].data) else None)
    else if p in m && n > 0 then Chain(t, m, m[p], n - 1)
    else None
  }

  ghost predicate LeadsTo(t: Tree, m: map<Path, Path>, p: Path, data: string) {
    exists n: nat :: Chain(t, m, p, n) == Some(data)
  }

  ghost predicate Resolves(t: Tree, m: map<Path, Path>, p: Path) {
    exists n: nat :: Chain(t, m, p, n).Some?
  }

  /** The links go to distinct new paths, none inside another, with directories above,
      and none names a path the code would reach through a symbolic link. */
  predicate Fit(t: Tree, pending: seq<Pending>) {
    && (forall i :: 0 <= i < |pending| ==> pending[i].path !in t && pending[i].path != [])
    && (forall i :: 0 <= i < |pending| ==> !Blocked(t, pending[i].path))
    && (forall i :: 0 <= i < |pending| ==> !BehindLink(t, pending[i].target))
    && (forall i :: 0 <= i < |pending| ==> pending[i].target in t ==> !t[pending[i].target].Link?)
    && (forall i, j :: 0 <= i < |pending| && 0 <= j < |pending| && i != j ==>
          pending[i].path != pending[j].path && !Below(pending[i].path, pending[j].path))
  }

  /** `t'` is `t` with the file at the end of its chain at every link, and a directory
      wherever one was missing above a link. */
  ghost predicate Linked(t: Tree, m: map<Path, Path>, t': Tree) {
    && (forall p :: p in t ==> p in t' && t'[p] == t[p])
    && (forall p :: p in m ==> p in t' && t'[p].File? && LeadsTo(t, m, p, t'[p].data))
    && (forall p :: p in t' && p !in t && p !in m ==> t'[p].Dir? && exists d :: d in m && Below(p, d))
    && (forall p, d :: d in m && Below(p, d) ==> p in t')
  }

  lemma {:induction false} ChainExtends(t: Tree, m: map<Path, Path>, p: Path, n: nat, k: nat)
    requires Chain(t, m, p, n).Some? && n <= k
    ensures Chain(t, m, p, k) == Chain(t, m, p, n)
    decreases n
  {
    if p in t {
    } else {
      ChainExtends(t, m, m[p], n - 1, k - 1);
    }
  }

  /** The result of the links is fixed by the links themselves, whatever the order of
      the pending list. */
  lemma LinkedUnique(t: Tree, m: map<Path, Path>, t1: Tree, t2: Tree)
    requires Linked(t, m, t1) && Linked(t, m, t2)
    ensures t1 == t2
  {
    forall p | p in m ensures t1[p] == t2[p] {
      var n1: nat :| Chain(t, m, p, n1) == Some(t1[p].data);
      var n2: nat :| Chain(t, m, p, n2) == Some(t2[p].data);
      if n1 <= n2 {
        ChainExtends(t, m, p, n1, n2);
      } else {
        ChainExtends(t, m, p, n2, n1);
      }
    }
    forall p | p in t1 ensures p in t2 && t1[p] == t2[p] {
    }
    forall p | p in t2 ensures p in t1 {
    }
  }

  lemma {:induction false} TargetsAre(pending: seq<Pending>)
    requires forall i, j :: 0 <= i < j < |pending| ==> pending[i].path != pending[j].path
    ensures var m := Targets(pending);
      && (forall i :: 0 <= i < |pending| ==> pending[i].path in m && m[pending[i].path] == pending[i].target)
      && (forall p :: p in m ==> exists i :: 0 <= i < |pending| && pending[i].path == p)
    decreases |pending|
  {
    if pending == [] {
    } else {
      var n := |pending| - 1;
      TargetsAre(pending[..n]);
      assert forall i :: 0 <= i < n ==> pending[..n][i] == pending[i];
    }
  }

  /** The links that are listed do not depend on the order of the list. */
  lemma TargetsOrder(a: seq<Pending>, b: seq<Pending>)
    requires multiset(a) == multiset(b)
    requires forall i, j :: 0 <= i < j < |a| ==> a[i].path != a[j].path
    requires forall i, j :: 0 <= i < j < |b| ==> b[i].path != b[j].path
    ensures Targets(a) == Targets(b)
  {
    TargetsAre(a);
    TargetsAre(b);
    SameElements(a, b);
    SameElements(b, a);
  }

  /** Two lists of the same links lead to the same result. */
  lemma LinkOrderIrrelevant(t: Tree, a: seq<Pending>, b: seq<Pending>, t1: Tree, t2: Tree)
    requires multiset(a) == multiset(b) && Fit(t, a) && Fit(t, b)
    requires Linked(t, Targets(a), t1) && Linked(t, Targets(b), t2)
    ensures t1 == t2
    ensures (forall i :: 0 <= i < |a| ==> Resolves(t, Targets(a), a[i].path)) <==>
            (forall i :: 0 <= i < |b| ==> Resolves(t, Targets(b), b[i].path))
  {
    TargetsOrder(a, b);
    LinkedUnique(t, Targets(a), t1, t2);
    SameElements(a, b);
    SameElements(b, a);
  }

  // ---- the loop ----

  /** The links created so far are those of `m` that `t'` has. */
  ghost predicate Partly(t: Tree, m: map<Path, Path>, t': Tree) {
    && (forall p :: p in t ==> p in t' && t'[p] == t[p])
    && (forall p :: p in m && p in t' ==> t'[p].File? && LeadsTo(t, m, p, t'[p].data))
    && (forall p :: p in t' && p !in t && p !in m ==> t'[p].Dir? && exists d :: d in m && d in t' && Below(p, d))
    && (forall p, d :: d in m && d in t' && Below(p, d) ==> p in t')
  }

  /** `rest` holds every link that is still to be created, once. */
  ghost predicate Waiting(pending: seq<Pending>, t: Tree, rest: seq<Pending>) {
    && (forall i :: 0 <= i < |rest| ==> rest[i] in pending && rest[i].path !in t)
    && (forall i, j :: 0 <= i < j < |rest| ==> rest[i].path != rest[j].path)
    && (forall i :: 0 <= i < |pending| ==> pending[i].path in t || pending[i] in rest)
  }

  predicate IsFile(t: Tree, p: Path) { p in t && t[p].File? }

  /** No link is inside another, and each has the target it was listed with. */
  lemma FitTargets(t: Tree, pending: seq<Pending>, link: Pending)
    requires Fit(t, pending) && link in pending
    ensures var m := Targets(pending);
      && link.path in m && m[link.path] == link.target && link.path !in t && link.path != []
      && !Blocked(t, link.path)
      && (forall q :: q in m ==> !Below(q, link.path) && !Below(link.path, q))
      && (forall i :: 0 <= i < |pending| && pending[i].path == link.path ==> pending[i] == link)
  {
    TargetsAre(pending);
    var k :| 0 <= k < |pending| && pending[k] == link;
    forall q | q in Targets(pending) ensures !Below(q, link.path) && !Below(link.path, q) {
      var i :| 0 <= i < |pending| && pending[i].path == q;
      assert i != k ==> !Below(pending[i].path, pending[k].path) && !Below(pending[k].path, pending[i].path);
    }
  }

  lemma LinkUnblocked(t: Tree, m: map<Path, Path>, t': Tree, d: Path)
    requires Partly(t, m, t') && !Blocked(t, d) && forall q :: q in m ==> !Below(q, d)
    ensures !Blocked(t', d)
  {
    forall q | q in t' && Below(q, d) ensures t'[q].Dir? {
      assert q !in m;
    }
  }

  /** `t2` is `t'` with a file at `d` and directories above it. */
  ghost predicate AddsFile(t': Tree, d: Path, data: string, t2: Tree) {
    && (forall p :: p in t' ==> p in t2 && t2[p] == t'[p])
    && (forall p :: p in t2 && p !in t' ==> t2[p] == (if p == d then File(data) else Dir) && (p == d || Below(p, d)))
    && d in t2 && (forall p :: Below(p, d) ==> p in t2)
  }

  lemma LinkAddsFile(t': Tree, d: Path, data: string)
    requires d !in t' && !Blocked(t', d)
    ensures var r := Apply(t', Add(d, File(data))); r.Ok? && AddsFile(t', d, data, r.value)
  {
    AncestorsAre(d);
  }

  lemma LinkKeepsPartly(t: Tree, m: map<Path, Path>, t': Tree, link: Pending, t2: Tree)
    requires Partly(t, m, t') && link.path in m && m[link.path] == link.target
    requires link.path !in t' && IsFile(t', link.target)
    requires forall q :: q in m ==> !Below(q, link.path)
    requires AddsFile(t', link.path, t'[link.target].data, t2)
    ensures Partly(t, m, t2)
  {
    LinkChain(t, m, t', link);
    LinkKeepsFiles(t, m, t', link, t2);
    LinkKeepsDirs(t, m, t', link, t2);
  }

  lemma LinkKeepsFiles(t: Tree, m: map<Path, Path>, t': Tree, link: Pending, t2: Tree)
    requires forall p :: p in m && p in t' ==> t'[p].File? && LeadsTo(t, m, p, t'[p].data)
    requires forall q :: q in m ==> !Below(q, link.path)
    requires IsFile(t', link.target) && link.path !in t'
    requires AddsFile(t', link.path, t'[link.target].data, t2)
    requires LeadsTo(t, m, link.path, t'[link.target].data)
    ensures forall p :: p in m && p in t2 ==> t2[p].File? && LeadsTo(t, m, p, t2[p].data)
  {
    forall p | p in m && p in t2 ensures t2[p].File? && LeadsTo(t, m, p, t2[p].data) {
      if p !in t' {
        assert p == link.path;
      }
    }
  }

  lemma LinkKeepsDirs(t: Tree, m: map<Path, Path>, t': Tree, link: Pending, t2: Tree)
    requires Partly(t, m, t') && link.path in m && link.path !in t'
    requires IsFile(t', link.target) && AddsFile(t', link.path, t'[link.target].data, t2)
    requires forall q :: q in m ==> !Below(q, link.path)
    ensures forall p :: p in t2 && p !in t && p !in m ==> t2[p].Dir? && exists d :: d in m && d in t2 && Below(p, d)
    ensures forall p, d :: d in m && d in t2 && Below(p, d) ==> p in t2
  {
    forall p | p in t2 && p !in t && p !in m
      ensures t2[p].Dir? && exists d :: d in m && d in t2 && Below(p, d)
    {
      if p in t' {
        var d :| d in m && d in t' && Below(p, d);
        assert d in t2;
      } else {
        assert Below(p, link.path);
      }
    }
    forall p, d | d in m && d in t2 && Below(p, d) ensures p in t2 {
      if d !in t' {
        assert d == link.path;
      }
    }
  }

  /** One link created from a file that is there. */
  lemma LinkOne(t: Tree, pending: seq<Pending>, t': Tree, link: Pending)
    requires Fit(t, pending) && Partly(t, Targets(pending), t')
    requires link in pending && link.path !in t' && IsFile(t', link.target)
    ensures var r := Apply(t', Add(link.path, t'[link.target]));
      && r.Ok? && AddsFile(t', link.path, t'[link.target].data, r.value) && Partly(t, Targets(pending), r.value)
  {
    var m := Targets(pending);
    FitTargets(t, pending, link);
    LinkUnblocked(t, m, t', link.path);
    var data := t'[link.target].data;
    LinkAddsFile(t', link.path, data);
    assert t'[link.target] == File(data);
    LinkKeepsPartly(t, m, t', link, Apply(t', Add(link.path, File(data))).value);
  }

  lemma OnlyLinkAdded(t: Tree, pending: seq<Pending>, t': Tree, link: Pending, data: string, t2: Tree)
    requires Fit(t, pending) && link in pending && AddsFile(t', link.path, data, t2)
    ensures forall i :: 0 <= i < |pending| && pending[i].path in t2 ==> pending[i].path in t' || pending[i] == link
  {
    FitTargets(t, pending, link);
    TargetsAre(pending);
    forall i | 0 <= i < |pending| && pending[i].path in t2
      ensures pending[i].path in t' || pending[i] == link
    {
      assert pending[i].path in Targets(pending);
    }
  }

  /** What holds whenever the links in `rest` are still to be created. */
  ghost predicate Progressing(t: Tree, pending: seq<Pending>, t': Tree, rest: seq<Pending>) {
    Fit(t, pending) ==> Partly(t, Targets(pending), t') && Waiting(pending, t', rest)
  }

  lemma CreatedProgress(t: Tree, pending: seq<Pending>, t': Tree,
      before: seq<Pending>, link: Pending, after: seq<Pending>)
    requires Progressing(t, pending, t', before + [link] + after) && IsFile(t', link.target)
    ensures var r := Apply(t', Add(link.path, t'[link.target]));
      && (r.Ok? ==> Progressing(t, pending, r.value, before + after))
      && (Fit(t, pending) ==> r.Ok?)
  {
    if Fit(t, pending) {
      assert (before + [link] + after)[|before|] == link;
      LinkOne(t, pending, t', link);
      var t2 := Apply(t', Add(link.path, t'[link.target])).value;
      OnlyLinkAdded(t, pending, t', link, t'[link.target].data, t2);
      WaitingAfter(pending, t', t2, before, link, after);
    }
  }

  lemma LinkChain(t: Tree, m: map<Path, Path>, t': Tree, link: Pending)
    requires Partly(t, m, t') && IsFile(t', link.target)
    requires link.path in m && m[link.path] == link.target && link.path !in t
    ensures LeadsTo(t, m, link.path, t'[link.target].data)
  {
    var data := t'[link.target].data;
    if link.target in t {
      assert Chain(t, m, link.path, 1) == Some(data);
    } else {
      assert link.target in m;
      var n: nat :| Chain(t, m, link.target, n) == Some(data);
      assert Chain(t, m, link.path, n + 1) == Some(data);
    }
  }

  /** When no waiting link names a file, none of their chains ever reaches one. */
  lemma {:induction false} NoneResolves(t: Tree, pending: seq<Pending>,
      t': Tree, rest: seq<Pending>, link: Pending, n: nat)
    requires Fit(t, pending) && Partly(t, Targets(pending), t') && Waiting(pending, t', rest)
    requires Stuck(t', rest)
    requires link in rest
    ensures Chain(t, Targets(pending), link.path, n).None?
    decreases n
  {
    TargetsAre(pending);
    var m := Targets(pending);
    assert link in pending;
    assert m[link.path] == link.target;
    if n == 0 || link.target in t || link.target !in m {
    } else {
      var i :| 0 <= i < |pending| && pending[i].path == link.target;
      NoneResolves(t, pending, t', rest, pending[i], n - 1);
    }
  }

  lemma AllLinked(t: Tree, pending: seq<Pending>, t': Tree)
    requires Fit(t, pending) && Partly(t, Targets(pending), t') && Waiting(pending, t', [])
    ensures Linked(t, Targets(pending), t')
    ensures forall i :: 0 <= i < |pending| ==> Resolves(t, Targets(pending), pending[i].path)
  {
    TargetsAre(pending);
    NoneLeft(pending, t');
    var m := Targets(pending);
    assert m.Keys <= t'.Keys;
    PartlyIsLinked(t, m, t');
  }

  lemma NoneLeft(pending: seq<Pending>, t': Tree)
    requires Waiting(pending, t', [])
    ensures forall i :: 0 <= i < |pending| ==> pending[i].path in t'
  {
  }

  lemma PartlyIsLinked(t: Tree, m: map<Path, Path>, t': Tree)
    requires Partly(t, m, t') && m.Keys <= t'.Keys
    ensures Linked(t, m, t') && forall p :: p in m ==> Resolves(t, m, p)
  {
  }

  lemma WaitingAfter(pending: seq<Pending>, t: Tree, t': Tree, before: seq<Pending>, link: Pending, after: seq<Pending>)
    requires Waiting(pending, t, before + [link] + after)
    requires t.Keys <= t'.Keys && link.path in t'
    requires forall i :: 0 <= i < |pending| && pending[i].path in t' ==> pending[i].path in t || pending[i] == link
    ensures Waiting(pending, t', before + after)
  {
    var all := before + [link] + after;
    var rest := before + after;
    forall i | 0 <= i < |rest| ensures rest[i] in pending && rest[i].path !in t' {
      var k := if i < |before| then i else i + 1;
      assert all[k] == rest[i] && all[|before|] == link;
    }
    forall i, j | 0 <= i < j < |rest| ensures rest[i].path != rest[j].path {
      assert rest[i] == all[if i < |before| then i else i + 1] && rest[j] == all[if j < |before| then j else j + 1];
    }
    forall i | 0 <= i < |pending| ensures pending[i].path in t' || pending[i] in rest {
      if pending[i].path !in t' {
        assert pending[i] in all && pending[i] != link;
      }
    }
  }

  lemma Unresolvable(t: Tree, pending: seq<Pending>, t': Tree, rest: seq<Pending>)
    requires Fit(t, pending) && Progressing(t, pending, t', rest) && rest != []
    requires Stuck(t', rest)
    ensures exists i :: 0 <= i < |pending| && !Resolves(t, Targets(pending), pending[i].path)
  {
    var link := rest[0];
    forall n: nat ensures Chain(t, Targets(pending), link.path, n).None? {
      NoneResolves(t, pending, t', rest, link, n);
    }
    assert link in pending;
    var i :| 0 <= i < |pending| && pending[i] == link;
    assert !Resolves(t, Targets(pending), pending[i].path);
  }

  /** No link in the list names a file. */
  predicate Stuck(t: Tree, links: seq<Pending>) {
    forall i :: 0 <= i < |links| ==> !IsFile(t, links[i].target)
  }

  lemma SplitRest(before: seq<Pending>, links: seq<Pending>, k: nat)
    requires k < |links|
    ensures before + links[k..] == before + [links[k]] + links[k + 1..]
    ensures before + links[k..] == (before + [links[k]]) + links[k + 1..]
  {
  }

  /** The pass has looked at `k` of the links and keeps `remaining` of them. */
  ghost predicate Passing(start: Tree, pending: seq<Pending>, t: Tree,
    remaining: seq<Pending>, links: seq<Pending>, k: nat) {
    && k <= |links| && Progressing(start, pending, t, remaining + links[k..]) && NonRoot(remaining)
    && |remaining| <= k && (|remaining| == k ==> Stuck(t, remaining))
  }

  lemma KeepLink(start: Tree, pending: seq<Pending>, t: Tree, remaining: seq<Pending>, links: seq<Pending>, k: nat)
    requires k < |links| && links[k].path != [] && Passing(start, pending, t, remaining, links, k)
    requires !IsFile(t, links[k].target)
    ensures Passing(start, pending, t, remaining + [links[k]], links, k + 1)
  {
    SplitRest(remaining, links, k);
  }

  datatype Passed = Passed(tree: Tree, remaining: seq<Pending>)

  /** What a pass over `links` makes of the tree, and the links that it leaves. */
  function Pass(t: Tree, links: seq<Pending>): Result<Passed, Error> {
    if links == [] then Ok(Passed(t, []))
    else
      match Pass(t, links[..|links| - 1])
      case Err(e) => Err(e)
      case Ok(before) => PassLink(before, links[|links| - 1])
  }

  function PassLink(before: Passed, link: Pending): Result<Passed, Error> {
    if !IsFile(before.tree, link.target) then Ok(Passed(before.tree, before.remaining + [link]))
    else
      match Apply(before.tree, Add(link.path, before.tree[link.target]))
      case Ok(t) => Ok(Passed(t, before.remaining))
      case Err(e) => Err(e)
  }

  /** A pass that has failed stays failed. */
  lemma {:induction false} FailedPass(t: Tree, links: seq<Pending>, k: nat)
    requires k <= |links| && Pass(t, links[..k]).Err?
    ensures Pass(t, links) == Pass(t, links[..k])
  {
    if k == |links| {
      assert links[..k] == links;
    } else {
      var n := |links| - 1;
      assert links[..n][..k] == links[..k];
      FailedPass(t, links[..n], k);
    }
  }

  lemma PassStarts(start: Tree, pending: seq<Pending>, t: Tree, links: seq<Pending>)
    requires Progressing(start, pending, t, links)
    ensures Passing(start, pending, t, [], links, 0)
  {
    assert [] + links[0..] == links;
  }

  lemma PassEnds(start: Tree, pending: seq<Pending>, t: Tree, remaining: seq<Pending>, links: seq<Pending>)
    requires Passing(start, pending, t, remaining, links, |links|)
    ensures Progressing(start, pending, t, remaining) && NonRoot(remaining) && |remaining| <= |links|
    ensures |remaining| == |links| ==> Stuck(t, remaining)
  {
    assert remaining + links[|links|..] == remaining;
  }

  lemma PassLinkKeeps(start: Tree, pending: seq<Pending>, before: Passed, links: seq<Pending>, k: nat)
    requires k < |links| && WellFormed(before.tree) && links[k].path != []
    requires Passing(start, pending, before.tree, before.remaining, links, k)
    ensures var after := PassLink(before, links[k]);
      && (after.Ok? ==>
            && WellFormed(after.value.tree)
            && Passing(start, pending, after.value.tree, after.value.remaining, links, k + 1))
      && (after.Err? ==> !after.error.Escaped?) && (Fit(start, pending) ==> after.Ok?)
  {
    var link := links[k];
    if IsFile(before.tree, link.target) {
      LinkedPasses(start, pending, before, links, k);
    } else {
      KeepLink(start, pending, before.tree, before.remaining, links, k);
    }
  }

  lemma LinkedPasses(start: Tree, pending: seq<Pending>, before: Passed, links: seq<Pending>, k: nat)
    requires k < |links| && WellFormed(before.tree) && links[k].path != []
    requires Passing(start, pending, before.tree, before.remaining, links, k) && IsFile(before.tree, links[k].target)
    ensures var r := Apply(before.tree, Add(links[k].path, before.tree[links[k].target]));
      && (r.Ok? ==> WellFormed(r.value) && Passing(start, pending, r.value, before.remaining, links, k + 1))
      && (r.Err? ==> !r.error.Escaped?) && (Fit(start, pending) ==> r.Ok?)
  {
    var link := links[k];
    SplitRest(before.remaining, links, k);
    CreatedProgress(start, pending, before.tree, before.remaining, link, links[k + 1..]);
    AddNeverEscapes(before.tree, link.path, before.tree[link.target]);
    if Apply(before.tree, Add(link.path, before.tree[link.target])).Ok? {
      AddWellFormed(before.tree, link.path, before.tree[link.target]);
    }
  }

  /** A pass over `links` has come to link `at`, and ends so. */
  predicate PassStops(t: Tree, links: seq<Pending>, at: nat, t': Tree, r: Result<seq<Pending>, Error>) {
    && at <= |links| && Pass(t, links[..at]).Ok? && t' == Pass(t, links[..at]).value.tree
    && match Pass(t, links)
       case Ok(passed) => at == |links| && r == Ok(passed.remaining)
       case Err(e) => r == Err(e)
  }

  ghost predicate PassedWell(start: Tree, pending: seq<Pending>, r: Result<Passed, Error>,
                             links: seq<Pending>, k: nat) {
    match r
    case Ok(passed) => WellFormed(passed.tree) && Passing(start, pending, passed.tree, passed.remaining, links, k)
    case Err(e) => !e.Escaped? && !Fit(start, pending)
  }

  /** Every stretch of a pass keeps what a pass keeps. */
  lemma {:induction false} PassKeeps(start: Tree, pending: seq<Pending>, t: Tree, links: seq<Pending>, k: nat)
    requires k <= |links| && WellFormed(t) && NonRoot(links) && Passing(start, pending, t, [], links, 0)
    ensures PassedWell(start, pending, Pass(t, links[..k]), links, k)
  {
    if k == 0 {
      assert Pass(t, links[..0]) == Ok(Passed(t, []));
    } else {
      PassKeeps(start, pending, t, links, k - 1);
      assert links[..k][..k - 1] == links[..k - 1] && links[..k][k - 1] == links[k - 1];
      PassGrows(start, pending, Pass(t, links[..k - 1]), Pass(t, links[..k]), links, k - 1);
    }
  }

  lemma PassGrows(start: Tree, pending: seq<Pending>, before: Result<Passed, Error>, after: Result<Passed, Error>,
                  links: seq<Pending>, k: nat)
    requires k < |links| && links[k].path != [] && PassedWell(start, pending, before, links, k)
    requires after == match before case Ok(passed) => PassLink(passed, links[k]) case Err(e) => Err(e)
    ensures PassedWell(start, pending, after, links, k + 1)
  {
    if before.Ok? {
      PassLinkKeeps(start, pending, before.value, links, k);
    }
  }

  lemma PassResult(start: Tree, pending: seq<Pending>, t: Tree, links: seq<Pending>, at: nat, t': Tree,
                   r: Result<seq<Pending>, Error>)
    requires WellFormed(t) && NonRoot(links) && Progressing(start, pending, t, links)
    requires PassStops(t, links, at, t', r)
    ensures WellFormed(t') && (r.Err? ==> !r.error.Escaped?) && (Fit(start, pending) ==> r.Ok?)
    ensures r.Ok? ==>
      && Progressing(start, pending, t', r.value) && NonRoot(r.value) && |r.value| <= |links|
      && (|r.value| == |links| ==> Stuck(t', r.value))
  {
    PassStarts(start, pending, t, links);
    PassKeeps(start, pending, t, links, at);
    assert links[..|links|] == links;
    PassKeeps(start, pending, t, links, |links|);
    if r.Ok? {
      PassEnds(start, pending, t', r.value, links);
    }
  }

  predicate NonRoot(links: seq<Pending>) {
    forall i :: 0 <= i < |links| ==> links[i].path != []
  }

  lemma AddNeverEscapes(t: Tree, a: Path, node: Node)
    ensures Apply(t, Add(a, node)).Err? ==> !Apply(t, Add(a, node)).error.Escaped?
  {
  }

  /** The staging directory, which the installer changes in place. */
  class Staging {
    var tree: Tree

    constructor (t: Tree)
      requires WellFormed(t)
      ensures tree == t
    {
      tree := t;
    }

    /** One pass over the unresolved links: each one whose target is a file by then is created. */
    method LinkPass(ghost start: Tree, ghost pending: seq<Pending>, unresolved: seq<Pending>)
      returns (r: Result<seq<Pending>, Error>)
      requires WellFormed(tree) && NonRoot(unresolved) && Progressing(start, pending, tree, unresolved)
      modifies this
      ensures WellFormed(tree)
      ensures r.Ok? ==>
        && Progressing(start, pending, tree, r.value) && NonRoot(r.value) && |r.value| <= |unresolved|
        && (|r.value| == |unresolved| ==> Stuck(tree, r.value))
      ensures r.Err? ==> !r.error.Escaped?
      ensures Fit(start, pending) ==> r.Ok?
    {
      ghost var before, at := tree, 0;
      r, at := PassOver(unresolved);
      PassResult(start, pending, before, unresolved, at, tree, r);
    }

    /** The loop of a pass. */
    method PassOver(unresolved: seq<Pending>) returns (r: Result<seq<Pending>, Error>, ghost at: nat)
      modifies this
      ensures PassStops(old(tree), unresolved, at, tree, r)
    {
      var remaining := [];
      for k := 0 to |unresolved|
        invariant Pass(old(tree), unresolved[..k]) == Ok(Passed(tree, remaining))
      {
        var link := unresolved[k];
        assert unresolved[..k + 1][..k] == unresolved[..k];
        if link.target !in tree || !tree[link.target].File? {
          remaining := remaining + [link];
        } else {
          var linked := Apply(tree, Add(link.path, tree[link.target]));
          if linked.Err? {
            FailedPass(old(tree), unresolved, k + 1);
            return Err(linked.error), k;
          }
          tree := linked.value;
        }
      }
      assert unresolved[..|unresolved|] == unresolved;
      return Ok(remaining), |unresolved|;
    }

    /** Creates the pending links.  For links that fit it succeeds exactly when every
        chain reaches a file, and then leaves the one tree that has them all. */
    method CreateLinks(pending: seq<Pending>) returns (r: Result<(), Error>)
      requires WellFormed(tree) && NonRoot(pending)
      modifies this
      ensures WellFormed(tree)
      ensures Fit(old(tree), pending) ==>
        (r.Ok? <==> forall i :: 0 <= i < |pending| ==> Resolves(old(tree), Targets(pending), pending[i].path))
      ensures Fit(old(tree), pending) && r.Ok? ==> Linked(old(tree), Targets(pending), tree)
      ensures Fit(old(tree), pending) && r.Err? ==> r.error == LinkUnavailable
      ensures r.Err? ==> !r.error.Escaped?
    {
      ghost var start := tree;
      var unresolved := pending;
      NothingLinked(start, pending);
      while unresolved != []
        invariant WellFormed(tree) && NonRoot(unresolved)
        invariant Progressing(start, pending, tree, unresolved)
        decreases |unresolved|
      {
        var pass := LinkPass(start, pending, unresolved);
        if pass.Err? {
          return Err(pass.error);
        }
        var remaining := pass.value;
        if |remaining| == |unresolved| {   // no progress
          if Fit(start, pending) {
            Unresolvable(start, pending, tree, remaining);
          }
          return Err(LinkUnavailable);
        }
        unresolved := remaining;
      }
      if Fit(start, pending) {
        AllLinked(start, pending, tree);
      }
      return Ok(());
    }

    /** One member: the size limit comes before the change.  A whiteout that escapes fails
        only after it has removed what it found. */
    method ApplyMember(op: Op, bytes: nat) returns (r: Result<nat, Error>)
      requires WellFormed(tree) && Proper(op)
      modifies this
      ensures WellFormed(tree)
      ensures r.Ok? ==>
        && Apply(old(tree), op) == Ok(tree) && r.value == bytes + Bytes(op) && !TooBig(op, bytes)
      ensures r.Err? ==> Halts(old(tree), op, bytes, tree, r.error)
    {
      if TooBig(op, bytes) {
        return Err(TooLarge);
      }
      var applied := Apply(tree, op);
      if applied.Err? {
        if applied.error.Escaped? {
          WreckWellFormed(tree, op.dir);
          tree := Wreck(tree, op.dir);
        }
        return Err(applied.error);
      }
      ApplyWellFormed(tree, op);
      tree := applied.value;
      return Ok(bytes + Bytes(op));
    }

    /** The members in archive order; the result is the byte count and the links left
        for the end. */
    method ApplyMembers(ops: seq<Op>, extracted: nat) returns (r: Result<(nat, seq<Pending>), Error>)
      requires WellFormed(tree) && Decoded(ops)
      modifies this
      ensures WellFormed(tree)
      ensures r.Ok? ==>
        && ApplyAll(old(tree), ops) == Ok(tree)
        && r.value.0 == extracted + TotalBytes(ops)
        && (r.value.0 > extracted ==> r.value.0 <= MAX_EXTRACTED_BYTES)
        && r.value.1 == PendingLinks(ops) && NonRoot(r.value.1)
      ensures r.Err? ==> ApplyAll(old(tree), ops).Err? || extracted + TotalBytes(ops) > MAX_EXTRACTED_BYTES
      ensures forall t', error :: StopsWith(old(tree), ops, extracted, t', error) <==> r == Err(error) && tree == t'
    {
      ghost var lower := tree;
      var bytes := extracted;
      var pending: seq<Pending> := [];
      for k := 0 to |ops|
        invariant WellFormed(tree) && Reached(lower, ops, extracted, k, tree, bytes, pending)
      {
        ghost var before := tree;
        var applied := ApplyMember(ops[k], bytes);
        if applied.Err? {
          StopsHere(lower, ops, extracted, k, bytes, pending, tree, applied.error);
          return Err(applied.error);
        }
        ReachesNext(lower, ops, extracted, k, before, bytes, pending, tree);
        bytes := applied.value;
        pending := pending + LinkOf(ops[k]);
      }
      assert ops[..|ops|] == ops;
      NeverStops(lower, ops, extracted);
      return Ok((bytes, pending));
    }

    /** `apply_aiostreams_layer`: the members in archive order, then the hard links.
        A layer as the specification allows it leaves its overlay with the links made. */
    method ApplyLayer(members: seq<Member>, extracted: nat) returns (r: Result<nat, Error>)
      requires WellFormed(tree)
      modifies this
      ensures WellFormed(tree)
      ensures var ops := DecodeAll(members);
        var lower := WithRoot(old(tree));
        r.Ok? ==>
          && ApplyAll(lower, ops).Ok?
          && r.value == extracted + TotalBytes(ops) && (r.value > extracted ==> r.value <= MAX_EXTRACTED_BYTES)
          && (Fit(ApplyAll(lower, ops).value, PendingLinks(ops)) ==>
                Linked(ApplyAll(lower, ops).value, Targets(PendingLinks(ops)), tree))
          && (WhiteoutsFirst(ops) ==> IsOverlay(lower, ops, ApplyAll(lower, ops).value))
      ensures var ops := DecodeAll(members);
        var applied := ApplyAll(WithRoot(old(tree)), ops);
        var links := PendingLinks(ops);
        applied.Ok? && Fit(applied.value, links) && extracted + TotalBytes(ops) <= MAX_EXTRACTED_BYTES ==>
          (r.Ok? <==> forall i :: 0 <= i < |links| ==> Resolves(applied.value, Targets(links), links[i].path))
      ensures forall t', error :: StopsWith(WithRoot(old(tree)), DecodeAll(members), extracted, t', error) ==>
        r == Err(error) && tree == t'
      ensures r.Ok? ==> OnlyMember(WithRoot(old(tree)), members, tree) && OnlyFileSize(members, extracted, r.value)
      ensures r == Err(Escaped) ==> StopsWith(WithRoot(old(tree)), DecodeAll(members), extracted, tree, Escaped)
    {
      tree := WithRoot(tree);
      ghost var ops := DecodeAll(members);
      OverlayIfOrdered(tree, ops);
      var applied := ApplyMembers(DecodeAll(members), extracted);
      if applied.Err? {
        return Err(applied.error);
      }
      var linked := CreateLinks(applied.value.1);
      if linked.Err? {
        return Err(linked.error);
      }
      OnlyMemberLands(WithRoot(old(tree)), members, tree);
      OnlyFileCounts(members, extracted, applied.value.0);
      return Ok(applied.value.0);
    }
  }

  lemma OneLinkFits(t: Tree, p: Path, target: Path)
    requires WellFormed(t) && p != [] && Linkable(t, p, target)
    ensures Fit(t, [Pending(p, target)])
  {
    if BehindLink(t, target) {
      var q :| q in t && Below(q, target) && t[q].Link?;
      AboveIsDir(t, target, q);
    }
  }

  lemma OneLink(t: Tree, p: Path, target: Path, t': Tree)
    requires WellFormed(t) && p != [] && Linkable(t, p, target)
    requires Linked(t, map[p := target], t')
    ensures p in t' && t'[p] == t[target] && forall q :: q in t ==> q in t' && t'[q] == t[q]
  {
    var m := map[p := target];
    var n: nat :| Chain(t, m, p, n) == Some(t'[p].data);
    assert n > 0 && Chain(t, m, target, n - 1) == Some(t[target].data);
  }

  lemma OverlayIfOrdered(t: Tree, ops: seq<Op>)
    requires WellFormed(t) && Decoded(ops)
    ensures WhiteoutsFirst(ops) && ApplyAll(t, ops).Ok? ==> IsOverlay(t, ops, ApplyAll(t, ops).value)
  {
    if WhiteoutsFirst(ops) && ApplyAll(t, ops).Ok? {
      ApplyAllIsOverlay(t, ops);
    }
  }

  /** If the layer has but one member, that member has landed. */
  ghost predicate OnlyMember(t: Tree, members: seq<Member>, t': Tree) {
    forall m :: members == [m] ==> Lands(t, m, t')
  }

  /** A regular file counts with its size, and no more than 4 GiB are extracted in all. */
  ghost predicate OnlyFileSize(members: seq<Member>, extracted: nat, total: nat) {
    forall p, data :: PlainPath(p) && members == [Member(AppName(p), FileEntry(data))] ==>
      total == extracted + |data| && (data != "" ==> total <= 4294967296)
  }

  lemma OnlyFileCounts(members: seq<Member>, extracted: nat, total: nat)
    requires total == extracted + TotalBytes(DecodeAll(members))
    requires total > extracted ==> total <= MAX_EXTRACTED_BYTES
    ensures OnlyFileSize(members, extracted, total)
  {
    forall p, data | PlainPath(p) && members == [Member(AppName(p), FileEntry(data))]
      ensures TotalBytes(DecodeAll(members)) == |data|
    {
      EntryLands(p, FileEntry(data));
      var ops := DecodeAll(members);
      assert ops == [Add(p, File(data))] && ops[..0] == [];
    }
  }

  lemma OnlyMemberLands(t: Tree, members: seq<Member>, t': Tree)
    requires WellFormed(t)
    requires var ops := DecodeAll(members);
      && ApplyAll(t, ops).Ok?
      && (Fit(ApplyAll(t, ops).value, PendingLinks(ops)) ==>
            Linked(ApplyAll(t, ops).value, Targets(PendingLinks(ops)), t'))
    ensures OnlyMember(t, members, t')
  {
    forall m | members == [m] ensures Lands(t, m, t') {
      OneMemberLands(t, m, t');
    }
  }

  /** A layer of one member has the effect of that member. */
  lemma OneMemberLands(t: Tree, m: Member, t': Tree)
    requires WellFormed(t)
    requires var ops := DecodeAll([m]);
      && ApplyAll(t, ops).Ok?
      && (Fit(ApplyAll(t, ops).value, PendingLinks(ops)) ==>
            Linked(ApplyAll(t, ops).value, Targets(PendingLinks(ops)), t'))
    ensures Lands(t, m, t')
  {
    assert DecodeAll([m]) == [Decode(m)];
    OneOp(t, Decode(m));
    OneOpLands(t, m, Apply(t, Decode(m)).value, LinkOf(Decode(m)), t');
  }

  lemma OneOpLands(t: Tree, m: Member, applied: Tree, links: seq<Pending>, t': Tree)
    requires WellFormed(t) && Apply(t, Decode(m)) == Ok(applied) && links == LinkOf(Decode(m))
    requires Fit(applied, links) ==> Linked(applied, Targets(links), t')
    ensures Lands(t, m, t')
  {
    if Decode(m).Pend? {
      LinkLands(t, m, Decode(m).path, Decode(m).target, t');
    } else {
      NothingToLink(applied, t');
      EntryOrWhiteoutLands(t, m);
    }
  }

  lemma LinkLands(t: Tree, m: Member, p: Path, target: Path, t': Tree)
    requires WellFormed(t) && Decode(m) == Pend(p, target)
    requires Fit(t, [Pending(p, target)]) ==> Linked(t, Targets([Pending(p, target)]), t')
    ensures Lands(t, m, t')
  {
    PendingLands(t, m, t');
    OneHardlinkLands(t, m, p, target, t');
    AppliedIsNotRefused(m);
    AllEffects(t, m, t');
  }

  lemma EntryOrWhiteoutLands(t: Tree, m: Member)
    requires WellFormed(t) && Apply(t, Decode(m)).Ok? && !Decode(m).Pend?
    ensures Lands(t, m, Apply(t, Decode(m)).value)
  {
    var t' := Apply(t, Decode(m)).value;
    AppliedLands(t, m);
    AppliedIsNoLink(t, m, t');
    AppliedIsNotRefused(m);
    AllEffects(t, m, t');
  }

  lemma NothingToLink(t: Tree, t': Tree)
    requires Fit(t, []) ==> Linked(t, map[], t')
    ensures t' == t
  {
    LinkedUnique(t, map[], t, t');
  }

  lemma AppliedIsNoLink(t: Tree, m: Member, t': Tree)
    requires !Decode(m).Pend?
    ensures LinkEffect(t, m, t')
  {
    forall p, target ensures !IsLink(m, p, target) {
      if IsLink(m, p, target) {
        HardlinkLands(p, target);
      }
    }
  }

  lemma OneOp(t: Tree, op: Op)
    ensures ApplyAll(t, [op]) == Apply(t, op) && PendingLinks([op]) == LinkOf(op)
  {
    assert [op][..0] == [];
  }

  lemma OneTarget(p: Path, target: Path)
    ensures Targets([Pending(p, target)]) == map[p := target]
  {
    assert [Pending(p, target)][..0] == [];
  }

  lemma OneHardlinkLands(t: Tree, m: Member, p: Path, target: Path, t': Tree)
    requires WellFormed(t) && Decode(m) == Pend(p, target)
    requires Fit(t, [Pending(p, target)]) ==> Linked(t, Targets([Pending(p, target)]), t')
    ensures LinkEffect(t, m, t')
  {
    forall p1, target1 | IsLink(m, p1, target1) && Linkable(t, p1, target1)
      ensures p1 in t' && t'[p1] == t[target1] && forall q :: q in t ==> q in t' && t'[q] == t[q]
    {
      HardlinkLands(p1, target1);
      OneLinkFits(t, p, target);
      OneTarget(p, target);
      OneLink(t, p, target, t');
    }
  }

  // ---- the members of a layer, as the loop consumes them ----

  /** The error with which `op` stops on tree `t`, and the tree it leaves then. */
  predicate Halts(t: Tree, op: Op, bytes: nat, t': Tree, error: Error) {
    if TooBig(op, bytes) then error.TooLarge? && t' == t
    else Apply(t, op) == Err(error) && t' == if error.Escaped? && op.Escape? then Wreck(t, op.dir) else t
  }

  predicate TooBig(op: Op, bytes: nat) {
    op.Add? && op.node.File? && bytes + Bytes(op) > MAX_EXTRACTED_BYTES
  }

  /** No member goes beyond the size limit. */
  predicate SmallEnough(ops: seq<Op>, extracted: nat) {
    ops == [] ||
    var n := |ops| - 1;
    SmallEnough(ops[..n], extracted) && !TooBig(ops[n], extracted + TotalBytes(ops[..n]))
  }

  /** The layer stops at member `k`, having applied all before it. */
  predicate HaltsAt(lower: Tree, ops: seq<Op>, extracted: nat, k: int, t': Tree, error: Error) {
    && 0 <= k < |ops| && ApplyAll(lower, ops[..k]).Ok?
    && SmallEnough(ops[..k], extracted)
    && Halts(ApplyAll(lower, ops[..k]).value, ops[k], extracted + TotalBytes(ops[..k]), t', error)
  }

  /** The first `k` members have been applied. */
  ghost predicate Reached(lower: Tree, ops: seq<Op>, extracted: nat,
                          k: nat, t: Tree, bytes: nat, pending: seq<Pending>) {
    && k <= |ops| && ApplyAll(lower, ops[..k]) == Ok(t)
    && bytes == extracted + TotalBytes(ops[..k]) && (bytes == extracted || bytes <= MAX_EXTRACTED_BYTES)
    && SmallEnough(ops[..k], extracted)
    && pending == PendingLinks(ops[..k]) && NonRoot(pending)
  }

  lemma ReachesNext(lower: Tree, ops: seq<Op>, extracted: nat,
                    k: nat, t: Tree, bytes: nat, pending: seq<Pending>, t': Tree)
    requires k < |ops| && Decoded(ops) && Reached(lower, ops, extracted, k, t, bytes, pending)
    requires Apply(t, ops[k]) == Ok(t') && !TooBig(ops[k], bytes)
    ensures Reached(lower, ops, extracted, k + 1, t', bytes + Bytes(ops[k]), pending + LinkOf(ops[k]))
  {
    OneMore(lower, ops, k);
    assert ops[..k + 1][..k] == ops[..k];
    var links := pending + LinkOf(ops[k]);
    assert forall i :: 0 <= i < |links| ==> links[i].path != [];
  }

  lemma StopsHere(lower: Tree, ops: seq<Op>, extracted: nat, k: nat, bytes: nat, pending: seq<Pending>,
                  t': Tree, error: Error)
    requires k < |ops| && ApplyAll(lower, ops[..k]).Ok?
    requires Reached(lower, ops, extracted, k, ApplyAll(lower, ops[..k]).value, bytes, pending)
    requires Halts(ApplyAll(lower, ops[..k]).value, ops[k], bytes, t', error)
    ensures forall t2, e2 :: StopsWith(lower, ops, extracted, t2, e2) <==> e2 == error && t2 == t'
    ensures ApplyAll(lower, ops).Err? || extracted + TotalBytes(ops) > MAX_EXTRACTED_BYTES
  {
    assert HaltsAt(lower, ops, extracted, k, t', error);
    StopsOnce(lower, ops, extracted, t', error);
    OneMore(lower, ops, k);
    PrefixOutcome(lower, ops, k + 1);
  }

  /** The members stop with this error, and leave this tree. */
  ghost predicate StopsWith(lower: Tree, ops: seq<Op>, extracted: nat, t': Tree, error: Error) {
    exists k :: HaltsAt(lower, ops, extracted, k, t', error)
  }

  /** A member that is applied does not stop the layer. */
  lemma AppliedGoesOn(lower: Tree, ops: seq<Op>, extracted: nat, k: nat)
    requires k < |ops| && ApplyAll(lower, ops[..k + 1]).Ok? && SmallEnough(ops[..k + 1], extracted)
    ensures forall t', error :: !HaltsAt(lower, ops, extracted, k, t', error)
  {
    OneMore(lower, ops, k);
    assert ops[..k + 1][..k] == ops[..k];
  }

  lemma NeverStops(lower: Tree, ops: seq<Op>, extracted: nat)
    requires ApplyAll(lower, ops).Ok?
    requires SmallEnough(ops, extracted)
    ensures forall t', error :: !StopsWith(lower, ops, extracted, t', error)
  {
    forall k, t', error | 0 <= k < |ops| ensures !HaltsAt(lower, ops, extracted, k, t', error) {
      PrefixOutcome(lower, ops, k + 1);
      AppliedGoesOn(lower, ops, extracted, k);
    }
  }

  lemma HaltsOnce(lower: Tree, ops: seq<Op>, extracted: nat, k1: int, t1: Tree, e1: Error, k2: int, t2: Tree, e2: Error)
    requires HaltsAt(lower, ops, extracted, k1, t1, e1) && HaltsAt(lower, ops, extracted, k2, t2, e2)
    ensures k1 >= k2
  {
    if k1 < k2 {
      PrefixOutcome(lower, ops[..k2], k1 + 1);
      assert ops[..k2][..k1 + 1] == ops[..k1 + 1];
      AppliedGoesOn(lower, ops, extracted, k1);
    }
  }

  /** There is one way to stop at most. */
  lemma StopsOnce(lower: Tree, ops: seq<Op>, extracted: nat, t1: Tree, e1: Error)
    requires StopsWith(lower, ops, extracted, t1, e1)
    ensures forall t2, e2 :: StopsWith(lower, ops, extracted, t2, e2) ==> t2 == t1 && e2 == e1
  {
    var k1 :| HaltsAt(lower, ops, extracted, k1, t1, e1);
    forall k2, t2, e2 | HaltsAt(lower, ops, extracted, k2, t2, e2) ensures t2 == t1 && e2 == e1 {
      HaltsOnce(lower, ops, extracted, k1, t1, e1, k2, t2, e2);
      HaltsOnce(lower, ops, extracted, k2, t2, e2, k1, t1, e1);
    }
  }

  /** An escape stops the layer exactly if the directory is there, and by then the contents of its
      parent are gone. */
  lemma EscapeHalts(t: Tree, d: Path, bytes: nat, t': Tree)
    requires WellFormed(t)
    ensures Halts(t, Escape(d), bytes, t', Escaped) <==> d in t && t[d].Dir? && t' == Wreck(t, d)
  {
    if d in t && BehindLink(t, d) {
      var q :| q in t && Below(q, d) && t[q].Link?;
      AboveIsDir(t, d, q);
    }
  }

  lemma WreckWellFormed(t: Tree, d: Path)
    requires WellFormed(t)
    ensures WellFormed(Wreck(t, d))
  {
    if d != [] {
      var parent := d[..|d| - 1];
      forall p | p in Wreck(t, d) && p != [] ensures p[..|p| - 1] in Wreck(t, d) {
        ParentIs(p);
        if Below(parent, p[..|p| - 1]) {
          InTransitive(parent, p[..|p| - 1], p);
        }
      }
    }
  }

  predicate Decoded(ops: seq<Op>) {
    forall i :: 0 <= i < |ops| ==> Proper(ops[i]) && (ops[i].Pend? ==> ops[i].path != [])
  }

  function DecodeAll(members: seq<Member>): (ops: seq<Op>)
    ensures |ops| == |members| && Decoded(ops)
  {
    seq(|members|, i requires 0 <= i < |members| => Decode(members[i]))
  }

  function WithRoot(t: Tree): Tree {
    if [] in t then t else t[[] := Dir]
  }

  function Bytes(op: Op): nat {
    if op.Add? && op.node.File? then |op.node.data| else 0
  }

  function TotalBytes(ops: seq<Op>): nat {
    if ops == [] then 0 else TotalBytes(ops[..|ops| - 1]) + Bytes(ops[|ops| - 1])
  }

  function LinkOf(op: Op): seq<Pending> {
    if op.Pend? then [Pending(op.path, op.target)] else []
  }

  function PendingLinks(ops: seq<Op>): seq<Pending> {
    if ops == [] then [] else PendingLinks(ops[..|ops| - 1]) + LinkOf(ops[|ops| - 1])
  }

  lemma OneMore(lower: Tree, ops: seq<Op>, k: nat)
    requires k < |ops|
    ensures TotalBytes(ops[..k + 1]) == TotalBytes(ops[..k]) + Bytes(ops[k])
    ensures PendingLinks(ops[..k + 1]) == PendingLinks(ops[..k]) + LinkOf(ops[k])
    ensures ApplyAll(lower, ops[..k]).Ok? ==>
      ApplyAll(lower, ops[..k + 1]) == Apply(ApplyAll(lower, ops[..k]).value, ops[k])
  {
    assert ops[..k + 1][..k] == ops[..k];
  }

  /** What stops or swells a prefix of a layer stops or swells the layer. */
  lemma {:induction false} PrefixOutcome(lower: Tree, ops: seq<Op>, k: nat)
    requires k <= |ops|
    ensures TotalBytes(ops[..k]) <= TotalBytes(ops)
    ensures ApplyAll(lower, ops).Ok? ==> ApplyAll(lower, ops[..k]).Ok?
    ensures forall extracted: nat :: SmallEnough(ops, extracted) ==> SmallEnough(ops[..k], extracted)
    decreases |ops|
  {
    if k < |ops| {
      PrefixOutcome(lower, ops[..|ops| - 1], k);
      assert ops[..|ops| - 1][..k] == ops[..k];
    } else {
      assert ops[..k] == ops;
    }
  }

  lemma NothingLinked(t: Tree, pending: seq<Pending>)
    ensures Progressing(t, pending, t, pending)
  {
    if Fit(t, pending) {
      TargetsAre(pending);
    }
  }
}
