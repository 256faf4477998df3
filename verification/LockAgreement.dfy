/** The builder and the checker agree, and neither depends on the order of the contract or the lock. */
module LockAgreement {
  import opened Wrappers
  import opened Ordering
  import opened Lock
  import Planning

  // ---- Lists with distinct keys ------------------------------------------------------------------

  lemma SameElementsSortAlike<T>(xs: seq<T>, ys: seq<T>, key: T -> Key)
    requires DistinctBy(xs, key) && DistinctBy(ys, key) && forall x :: x in xs <==> x in ys
    ensures SortBy(xs, key) == SortBy(ys, key)
  {
    SortByIsStrict(xs, key);
    SortByIsStrict(ys, key);
    SortedElements(xs, key);
    SortedElements(ys, key);
    AscendingByIsUnique(SortBy(xs, key), SortBy(ys, key), key);
  }

  lemma SortedElements<T>(xs: seq<T>, key: T -> Key)
    ensures forall x :: x in SortBy(xs, key) <==> x in xs
    ensures |SortBy(xs, key)| == |xs|
  {
    var ys := SortBy(xs, key);
    forall x ensures x in ys <==> x in xs {
      assert x in ys <==> x in multiset(ys);
      assert x in xs <==> x in multiset(xs);
    }
    assert |multiset(ys)| == |ys| && |multiset(xs)| == |xs|;
  }

  lemma SortedIsDistinct<T>(xs: seq<T>, key: T -> Key)
    ensures DistinctBy(SortBy(xs, key), key) <==> DistinctBy(xs, key)
  {
    if DistinctBy(xs, key) { DistinctKeysArePermutable(xs, SortBy(xs, key), key); }
    if DistinctBy(SortBy(xs, key), key) { DistinctKeysArePermutable(SortBy(xs, key), xs, key); }
  }

  lemma DistinctSnoc<T>(xs: seq<T>, key: T -> Key)
    requires xs != []
    ensures DistinctBy(xs, key) <==>
      DistinctBy(xs[..|xs| - 1], key) && forall x :: x in xs[..|xs| - 1] ==> key(x) != key(xs[|xs| - 1])
  {
    var n := |xs| - 1;
    var front := xs[..n];
    if DistinctBy(front, key) && forall x :: x in front ==> key(x) != key(xs[n]) {
      forall i, j | 0 <= i < j < |xs| ensures key(xs[i]) != key(xs[j]) {
        assert front[i] in front;
        if j < n { assert front[i] == xs[i] && front[j] == xs[j]; }
      }
    }
    if DistinctBy(xs, key) {
      forall i, j | 0 <= i < j < n
        ensures key(front[i]) != key(front[j]) { assert front[i] == xs[i] && front[j] == xs[j]; }
      forall x | x in front ensures key(x) != key(xs[n]) {
        var i :| 0 <= i < n && front[i] == x;
        assert xs[i] == x;
      }
    }
  }

  lemma KindNamesDiffer(a: Kind, b: Kind)
    ensures KindName(a) == KindName(b) <==> a == b
  {
    assert |KindName(Extension)| == 9 && |KindName(Skill)| == 5 && |KindName(PromptTemplate)| == 15 &&
        |KindName(Theme)| == 5;
    assert KindName(Skill)[0] == 's' && KindName(Theme)[0] == 't';
  }

  // ---- What validation asks for, without order -------------------------------------------------------

  ghost predicate RequestValid(host: Host, p: PackageRequest) {
    && !Planning.Blank(p.id) && |p.id| <= 128 && PortableId(p.id)
    && PackageIdentity(p.source.package) && ExactRequirement(p.requirement).Some?
    && (p.source.Workspace? ==> SafePath(p.source.root))
    && (p.source.Npm? ==> host.safeRegistry(p.source.registry))
    && DistinctBy(p.resources, ByKindAndPath())
    && forall r :: r in p.resources ==> SafePath(r.path) && (r.kind.Extension? ==> p.source == Builtin("nopal"))
  }

  ghost predicate BundleValid(host: Host, b: Bundle) {
    && b.version == BUNDLE_KIND && AmbientProblems(b.ambient) == []
    && DistinctBy(b.packages, ById()) && forall p :: p in b.packages ==> RequestValid(host, p)
  }

  lemma ResourceKeysSnoc(rs: seq<ResourceRequest>)
    requires rs != []
    ensures DistinctBy(rs, ByKindAndPath()) <==>
        DistinctBy(rs[..|rs| - 1], ByKindAndPath()) && rs[|rs| - 1] !in rs[..|rs| - 1]
  {
    var last := rs[|rs| - 1];
    DistinctSnoc(rs, ByKindAndPath());
    hide DistinctBy, KindName;
    forall r ensures ByKindAndPath()(r) == ByKindAndPath()(last) <==> r == last { KindNamesDiffer(r.kind, last.kind); }
  }

  lemma {:induction false} ResourcesValid(p: PackageRequest, rs: seq<ResourceRequest>)
    ensures ResourceProblems(p, rs) == [] <==>
      DistinctBy(rs, ByKindAndPath()) &&
          forall r :: r in rs ==> SafePath(r.path) && (r.kind.Extension? ==> p.source == Builtin("nopal"))
  {
    hide SafePath, DistinctBy, ByKindAndPath;
    if rs == [] {
      NoneDistinct(rs, ByKindAndPath());
    } else {
      var n := |rs| - 1;
      ResourcesValid(p, rs[..n]);
      ResourceKeysSnoc(rs);
      assert rs == rs[..n] + [rs[n]];
    }
  }

  lemma RequestValidIff(host: Host, p: PackageRequest)
    ensures RequestProblems(host, p) == [] <==> RequestValid(host, p)
  {
    hide SafePath, PortableId, PackageIdentity, ExactRequirement, Planning.Blank, DistinctBy;
    ResourcesValid(p, p.resources);
    hide ResourceProblems;
  }

  /** One more request keeps the ids distinct unless it repeats one. */
  lemma RequestIdsSnoc(ps: seq<PackageRequest>)
    requires ps != []
    ensures DistinctBy(ps, ById()) <==> DistinctBy(ps[..|ps| - 1], ById()) && !NamesId(ps[..|ps| - 1], ps[|ps| - 1].id)
  {
    DistinctSnoc(ps, ById());
    hide DistinctBy;
  }

  lemma {:induction false} RequestsValid(host: Host, ps: seq<PackageRequest>)
    ensures RequestsProblems(host, ps) == [] <==> DistinctBy(ps, ById()) && forall p ::
        p in ps ==> RequestValid(host, p)
  {
    hide RequestValid, RequestProblems, DistinctBy, NamesId, ById;
    if ps == [] {
      NoneDistinct(ps, ById());
    } else {
      var n := |ps| - 1;
      RequestsValid(host, ps[..n]);
      RequestValidIff(host, ps[n]);
      RequestIdsSnoc(ps);
      assert ps == ps[..n] + [ps[n]];
    }
  }

  lemma NoneDistinct<T>(xs: seq<T>, key: T -> Key)
    requires xs == []
    ensures DistinctBy(xs, key)
  {}

  lemma BundleValidIff(host: Host, b: Bundle)
    ensures BundleProblems(host, b) == [] <==> BundleValid(host, b)
  {
    hide RequestValid, RequestsProblems, DistinctBy;
    RequestsValid(host, b.packages);
  }

  ghost predicate LockedValid(host: Host, p: LockedPackage) {
    && PortableId(p.id) && p.id != "" && ExactVersion(p.resolved) && Sha256(p.installed)
    && (if p.source.Npm? then host.archiveDigest(p.artifact) else p.artifact == p.installed)
    && DistinctBy(p.resources, LockedByKindAndPath())
    && forall r :: r in p.resources ==> SafePath(r.path) && Sha256(r.integrity)
  }

  ghost predicate LockValid(host: Host, lock: LockDocument) {
    lock.version == LOCK_KIND && DistinctBy(lock.packages, LockedById()) &&
        forall p :: p in lock.packages ==> LockedValid(host, p)
  }

  lemma LockedKeysSnoc(rs: seq<LockedResource>)
    requires rs != []
    ensures DistinctBy(rs, LockedByKindAndPath()) <==>
      DistinctBy(rs[..|rs| - 1], LockedByKindAndPath()) && !RepeatsResource(rs[..|rs| - 1], rs[|rs| - 1])
  {
    var last := rs[|rs| - 1];
    DistinctSnoc(rs, LockedByKindAndPath());
    hide DistinctBy, KindName;
    forall r: LockedResource
      ensures LockedByKindAndPath()(r) == LockedByKindAndPath()(last) <==> r.kind == last.kind && r.path == last.path
    {
      KindNamesDiffer(r.kind, last.kind);
    }
  }

  lemma {:induction false} LockedResourcesValid(p: LockedPackage, rs: seq<LockedResource>)
    ensures LockedResourceProblems(p, rs) == [] <==>
      DistinctBy(rs, LockedByKindAndPath()) && forall r :: r in rs ==> SafePath(r.path) && Sha256(r.integrity)
  {
    hide SafePath, Sha256, DistinctBy, LockedByKindAndPath, RepeatsResource;
    if rs == [] {
      NoneDistinct(rs, LockedByKindAndPath());
    } else {
      var n := |rs| - 1;
      LockedResourcesValid(p, rs[..n]);
      LockedKeysSnoc(rs);
      assert rs == rs[..n] + [rs[n]];
    }
  }

  lemma LockedValidIff(host: Host, p: LockedPackage)
    ensures LockedProblems(host, p) == [] <==> LockedValid(host, p)
  {
    hide SafePath, PortableId, ExactVersion, Sha256, DistinctBy;
    LockedResourcesValid(p, p.resources);
    hide LockedResourceProblems;
  }

  lemma LockedIdsSnoc(ps: seq<LockedPackage>)
    requires ps != []
    ensures DistinctBy(ps, LockedById()) <==>
        DistinctBy(ps[..|ps| - 1], LockedById()) && !LocksId(ps[..|ps| - 1], ps[|ps| - 1].id)
  {
    DistinctSnoc(ps, LockedById());
    hide DistinctBy;
  }

  lemma {:induction false} LockedAllValid(host: Host, ps: seq<LockedPackage>)
    ensures LockProblems(host, ps) == [] <==> DistinctBy(ps, LockedById()) && forall p ::
        p in ps ==> LockedValid(host, p)
  {
    hide LockedValid, LockedProblems, DistinctBy, LocksId, LockedById;
    if ps == [] {
      NoneDistinct(ps, LockedById());
    } else {
      var n := |ps| - 1;
      LockedAllValid(host, ps[..n]);
      LockedValidIff(host, ps[n]);
      LockedIdsSnoc(ps);
      assert ps == ps[..n] + [ps[n]];
    }
  }

  lemma LockValidIff(host: Host, lock: LockDocument)
    ensures DocumentProblems(host, lock) == [] <==> LockValid(host, lock)
  {
    hide LockedValid, LockProblems, DistinctBy;
    LockedAllValid(host, lock.packages);
  }

  // ---- Claims ------------------------------------------------------------------------------------------

  /** Every export has a canonical path that nobody owns, and no two share one. */
  ghost predicate Claimable(host: Host, root: string, rs: seq<LockedResource>, taken: set<string>) {
    && (forall r :: r in rs ==>
        CanonicalOf(host, root, r.path).Some? && CanonicalOf(host, root, r.path).value !in taken)
    && (forall q, r :: q in rs && r in rs && q != r ==>
        CanonicalOf(host, root, q.path) != CanonicalOf(host, root, r.path))
  }

  function Claimed(host: Host, root: string, rs: seq<LockedResource>): set<string> {
    set r | r in rs && CanonicalOf(host, root, r.path).Some? :: CanonicalOf(host, root, r.path).value
  }

  lemma ClaimableSnoc(host: Host, root: string, rs: seq<LockedResource>, taken: set<string>)
    requires rs != [] && DistinctBy(rs, LockedByKindAndPath())
    ensures var (front, last) := (rs[..|rs| - 1], rs[|rs| - 1]);
      var path := CanonicalOf(host, root, last.path);
      && DistinctBy(front, LockedByKindAndPath())
      && (Claimable(host, root, rs, taken) <==>
            Claimable(host, root, front, taken) && path.Some? && path.value !in taken + Claimed(host, root, front))
      && (path.Some? ==> Claimed(host, root, rs) == Claimed(host, root, front) + {path.value})
  {
    hide CanonicalOf;
    var n := |rs| - 1;
    DistinctSnoc(rs, LockedByKindAndPath());
    hide DistinctBy;
    assert rs == rs[..n] + [rs[n]];
    assert rs[n] !in rs[..n];
    var path := CanonicalOf(host, root, rs[n].path);
    if Claimable(host, root, rs, taken) {
      forall r | r in rs[..n] ensures CanonicalOf(host, root, r.path) != path { assert r in rs && rs[n] in rs; }
      assert path.value !in Claimed(host, root, rs[..n]);
    }
    if Claimable(host, root, rs[..n], taken) && path.Some? && path.value !in taken + Claimed(host, root, rs[..n]) {
      forall r | r in rs[..n] ensures CanonicalOf(host, root, r.path) != path {
        assert CanonicalOf(host, root, r.path).value in Claimed(host, root, rs[..n]);
      }
    }
  }

  /** Claims that meet no problem are exactly the claimable ones, and then everything is granted. */
  lemma {:induction false} ClaimsIff(host: Host, root: string, id: string, rs: seq<LockedResource>, c: Claims)
    requires DistinctBy(rs, LockedByKindAndPath()) && c.problems == []
    ensures var after := ClaimAll(host, root, id, rs, c);
      && (after.problems == [] <==> Claimable(host, root, rs, c.owners.Keys))
      && (after.problems == [] ==>
          after.owners.Keys == c.owners.Keys + Claimed(host, root, rs) && after.granted == c.granted + rs)
  {
    hide CanonicalOf, DistinctBy;
    if rs != [] {
      var n := |rs| - 1;
      ClaimableSnoc(host, root, rs, c.owners.Keys);
      ClaimsIff(host, root, id, rs[..n], c);
      hide Claimable, Claimed;
      assert rs == rs[..n] + [rs[n]];
      assert c.granted + rs[..n] + [rs[n]] == c.granted + rs;
    } else {
      assert Claimed(host, root, rs) == {};
      assert c.granted + rs == c.granted;
    }
  }

  ghost predicate ClaimsPath(host: Host, root: string, rs: seq<LockedResource>, path: string) {
    exists i :: 0 <= i < |rs| && CanonicalOf(host, root, rs[i].path) == Some(path)
  }

  /** Export i has the canonical path, and no earlier one has. */
  ghost predicate FirstOf(host: Host, root: string, rs: seq<LockedResource>, i: nat, path: string)
    requires i < |rs|
  {
    CanonicalOf(host, root, rs[i].path) == Some(path) && !ClaimsPath(host, root, rs[..i], path)
  }

  /** The first export of a canonical path owns it: what was owned stays with its owner, every other exported path
      goes to its first export, and nothing else is owned. */
  lemma {:induction false} FirstExportOwns(host: Host, root: string, id: string, rs: seq<LockedResource>, c: Claims,
                                           path: string)
    ensures var owners := ClaimAll(host, root, id, rs, c).owners;
      && (path in owners <==> path in c.owners || ClaimsPath(host, root, rs, path))
      && (path in c.owners ==> owners[path] == c.owners[path])
      && (path !in c.owners ==>
            forall i :: 0 <= i < |rs| && FirstOf(host, root, rs, i, path) ==>
                owners[path] == Owner(id, rs[i].kind, rs[i].path))
  {
    hide CanonicalOf;
    if rs != [] {
      var n := |rs| - 1;
      FirstExportOwns(host, root, id, rs[..n], c, path);
      ClaimsPathSnoc(host, root, rs, path);
      forall i | 0 <= i < n ensures rs[..n][..i] == rs[..i] && rs[..n][i] == rs[i] {}
    }
  }

  lemma ClaimsPathSnoc(host: Host, root: string, rs: seq<LockedResource>, path: string)
    requires rs != []
    ensures var n := |rs| - 1;
      ClaimsPath(host, root, rs, path) <==>
          ClaimsPath(host, root, rs[..n], path) || CanonicalOf(host, root, rs[n].path) == Some(path)
  {
    hide CanonicalOf;
    var n := |rs| - 1;
    if ClaimsPath(host, root, rs[..n], path) {
      var i :| 0 <= i < n && CanonicalOf(host, root, rs[..n][i].path) == Some(path);
      assert rs[i] == rs[..n][i];
    }
    if ClaimsPath(host, root, rs, path) {
      var i :| 0 <= i <= n && CanonicalOf(host, root, rs[i].path) == Some(path);
      assert i < n ==> rs[..n][i] == rs[i];
    }
  }

  /** Over a whole build an owner, once recorded, is never replaced. */
  lemma {:induction false} OwnersStay(host: Host, ps: seq<PackageRequest>, k: nat, path: string)
    requires k <= |ps| && path in BuildAll(host, ps[..k]).owners
    ensures path in BuildAll(host, ps).owners && BuildAll(host, ps).owners[path] == BuildAll(host, ps[..k]).owners[path]
    decreases |ps|
  {
    if k == |ps| {
      assert ps[..k] == ps;
    } else {
      var front, last := ps[..|ps| - 1], ps[|ps| - 1];
      assert front[..k] == ps[..k];
      OwnersStay(host, front, k, path);
      var b := BuildAll(host, front);
      hide BuildStep;
      StepKeepsOwner(host, last, b, path);
    }
  }

  lemma StepKeepsOwner(host: Host, p: PackageRequest, b: Building, path: string)
    requires path in b.owners
    ensures path in BuildStep(host, p, b).owners && BuildStep(host, p, b).owners[path] == b.owners[path]
  {
    hide Resolve, LockLocal, ClaimAll;
    match Resolve(host, p)
    case Err(_) =>
    case Ok((root, resolved)) =>
      match LockLocal(host, p, root, resolved)
      case Err(_) =>
      case Ok(package) => FirstExportOwns(host, root, p.id, package.resources, Claims(b.owners, [], []), path);
  }

  ghost predicate Intact(host: Host, root: string, rs: seq<LockedResource>) {
    forall r :: r in rs ==> ResourceHash(host, root, r.path) == Some(r.integrity)
  }

  lemma IntactSnoc(host: Host, root: string, rs: seq<LockedResource>)
    requires rs != []
    ensures Intact(host, root, rs) <==>
      Intact(host, root, rs[..|rs| - 1]) && ResourceHash(host, root, rs[|rs| - 1].path) == Some(rs[|rs| - 1].integrity)
  {
    hide ResourceHash;
    assert rs == rs[..|rs| - 1] + [rs[|rs| - 1]];
  }

  /** One checked export adds no problem exactly when it is intact and its path is free. */
  lemma CheckStepIff(host: Host, root: string, id: string, r: LockedResource, c: Claims)
    ensures var after := CheckResource(host, root, id, r, c);
      var path := CanonicalOf(host, root, r.path);
      && (after.problems == [] <==>
          c.problems == [] && ResourceHash(host, root, r.path) == Some(r.integrity) && path.Some? &&
          path.value !in c.owners)
      && (after.problems == [] ==>
          after.owners.Keys == c.owners.Keys + {path.value} && after.granted == c.granted + [r])
  {
    hide CanonicalOf, ResourceHash, SafePath;
  }

  /** Checked exports meet no problem exactly when all are intact and claimable. */
  lemma {:induction false} ChecksIff(host: Host, root: string, id: string, rs: seq<LockedResource>, c: Claims)
    requires DistinctBy(rs, LockedByKindAndPath()) && c.problems == []
    ensures var after := CheckResources(host, root, id, rs, c);
      && (after.problems == [] <==> Intact(host, root, rs) && Claimable(host, root, rs, c.owners.Keys))
      && (after.problems == [] ==>
          after.owners.Keys == c.owners.Keys + Claimed(host, root, rs) && after.granted == c.granted + rs)
  {
    hide CanonicalOf, DistinctBy, ResourceHash, CheckResource;
    if rs != [] {
      var n := |rs| - 1;
      ClaimableSnoc(host, root, rs, c.owners.Keys);
      IntactSnoc(host, root, rs);
      ChecksIff(host, root, id, rs[..n], c);
      CheckStepIff(host, root, id, rs[n], CheckResources(host, root, id, rs[..n], c));
      hide Claimable, Claimed, Intact;
      assert c.granted + rs[..n] + [rs[n]] == c.granted + rs by { assert rs == rs[..n] + [rs[n]]; }
    } else {
      assert Claimed(host, root, rs) == {};
      assert c.granted + rs == c.granted;
    }
  }

  // ---- What the tree supports ---------------------------------------------------------------------------

  /** The root and the locked package that the tree yields for a request. */
  function Supported(host: Host, p: PackageRequest): Option<(string, LockedPackage)> {
    match Resolve(host, p)
    case Err(_) => None
    case Ok((root, resolved)) =>
      match LockLocal(host, p, root, resolved)
      case Err(_) => None
      case Ok(package) => Some((root, package))
  }

  ghost predicate LocksEach(host: Host, root: string, rs: seq<ResourceRequest>, mine: seq<LockedResource>) {
    |mine| == |rs| && forall i :: 0 <= i < |rs| ==>
      mine[i].kind == rs[i].kind && mine[i].path == rs[i].path &&
          ResourceHash(host, root, rs[i].path) == Some(mine[i].integrity)
  }

  lemma LocksEachSnoc(host: Host, root: string, rs: seq<ResourceRequest>, mine: seq<LockedResource>, r: ResourceRequest,
                      x: LockedResource)
    requires LocksEach(host, root, rs, mine)
    requires x.kind == r.kind && x.path == r.path && ResourceHash(host, root, r.path) == Some(x.integrity)
    ensures LocksEach(host, root, rs + [r], mine + [x])
  {
    hide ResourceHash;
  }

  lemma LockedAreDistinct(host: Host, root: string, rs: seq<ResourceRequest>, mine: seq<LockedResource>)
    requires DistinctBy(rs, ByKindAndPath()) && LocksEach(host, root, rs, mine)
    ensures DistinctBy(mine, LockedByKindAndPath())
  {
    hide ResourceHash;
    forall i, j | 0 <= i < j < |mine| ensures LockedByKindAndPath()(mine[i]) != LockedByKindAndPath()(mine[j]) {
      assert ByKindAndPath()(rs[i]) != ByKindAndPath()(rs[j]);
    }
  }

  lemma {:induction false} EachLocked(host: Host, id: string, root: string, rs: seq<ResourceRequest>)
    ensures var (locked, problems) := LockResources(host, id, root, rs);
      && (problems == [] <==> forall r :: r in rs ==> ResourceHash(host, root, r.path).Some?)
      && (problems == [] ==> LocksEach(host, root, rs, locked))
  {
    hide ResourceHash, SafePath;
    if rs != [] {
      var n := |rs| - 1;
      EachLocked(host, id, root, rs[..n]);
      assert rs == rs[..n] + [rs[n]];
      var (locked, problems) := LockResources(host, id, root, rs[..n]);
      hide LocksEach;
      match ResourceHash(host, root, rs[n].path)
      case None =>
      case Some(integrity) =>
        if problems == [] {
          LocksEachSnoc(host, root, rs[..n], locked, rs[n], LockedResource(rs[n].kind, rs[n].path, integrity));
        }
    }
  }

  lemma ResourcesLocked(host: Host, id: string, root: string, rs: seq<ResourceRequest>)
    requires DistinctBy(rs, ByKindAndPath())
    ensures var (locked, problems) := LockResources(host, id, root, rs);
      && (problems == [] <==> forall r :: r in rs ==> ResourceHash(host, root, r.path).Some?)
      && (problems == [] ==> DistinctBy(locked, LockedByKindAndPath()) && LocksEach(host, root, rs, locked))
  {
    EachLocked(host, id, root, rs);
    var (locked, problems) := LockResources(host, id, root, rs);
    hide *;
    if problems == [] { LockedAreDistinct(host, root, rs, locked); }
  }

  function NormalizeLocked(p: LockedPackage): LockedPackage {
    p.(resources := SortBy(p.resources, LockedByKindAndPath()))
  }

  /** The checker is content with the package itself and with every export's tree. */
  ghost predicate Fits(host: Host, p: PackageRequest, q: LockedPackage) {
    CheckPackage(host, p, q).Ok? && Intact(host, CheckPackage(host, p, q).value, q.resources)
  }

  /** The locked exports are those requested, with the hashes the tree has now. */
  ghost predicate ExportsMatch(host: Host, root: string, rs: seq<ResourceRequest>, locked: seq<LockedResource>) {
    RequestKeys(rs) == LockedKeys(locked) && Intact(host, root, locked)
  }

  lemma ExportsMatchIff(host: Host, id: string, root: string, rs: seq<ResourceRequest>, locked: seq<LockedResource>)
    requires DistinctBy(rs, ByKindAndPath()) && DistinctBy(locked, LockedByKindAndPath())
    ensures var (mine, problems) := LockResources(host, id, root, rs);
      ExportsMatch(host, root, rs, locked) <==>
        problems == [] && SortBy(mine, LockedByKindAndPath()) == SortBy(locked, LockedByKindAndPath())
  {
    var (mine, problems) := LockResources(host, id, root, rs);
    ResourcesLocked(host, id, root, rs);
    hide LockResources, ResourceHash;
    if ExportsMatch(host, root, rs, locked) {
      forall r | r in rs ensures ResourceHash(host, root, r.path).Some? {
        assert (r.kind, r.path) in LockedKeys(locked);
      }
      forall x ensures x in mine <==> x in locked { SameExport(host, root, rs, mine, locked, x); }
      SameElementsSortAlike(mine, locked, LockedByKindAndPath());
    }
    if problems == [] && SortBy(mine, LockedByKindAndPath()) == SortBy(locked, LockedByKindAndPath()) {
      SortedElements(mine, LockedByKindAndPath());
      SortedElements(locked, LockedByKindAndPath());
      assert forall x :: x in mine <==> x in locked;
      hide DistinctBy, SortBy;
      ExportsFromElements(host, root, rs, mine, locked);
    }
  }

  lemma SameExport(host: Host, root: string, rs: seq<ResourceRequest>, mine: seq<LockedResource>,
                   locked: seq<LockedResource>, x: LockedResource)
    requires LocksEach(host, root, rs, mine) && ExportsMatch(host, root, rs, locked)
    ensures x in mine <==> x in locked
  {
    hide ResourceHash;
    if x in mine {
      var i :| 0 <= i < |mine| && mine[i] == x;
      assert rs[i] in rs && (rs[i].kind, rs[i].path) in RequestKeys(rs);
      assert (x.kind, x.path) in LockedKeys(locked);
      var y :| y in locked && (y.kind, y.path) == (x.kind, x.path);
      assert y == x;
    }
    if x in locked {
      assert (x.kind, x.path) in LockedKeys(locked);
      assert (x.kind, x.path) in RequestKeys(rs);
      var r :| r in rs && (r.kind, r.path) == (x.kind, x.path);
      var i :| 0 <= i < |rs| && rs[i] == r;
      assert mine[i] == x;
    }
  }

  lemma ExportsFromElements(host: Host, root: string, rs: seq<ResourceRequest>, mine: seq<LockedResource>,
                            locked: seq<LockedResource>)
    requires LocksEach(host, root, rs, mine) && forall x :: x in mine <==> x in locked
    ensures ExportsMatch(host, root, rs, locked)
  {
    hide ResourceHash;
    forall x | x in locked
      ensures ResourceHash(host, root, x.path) == Some(x.integrity) && (x.kind, x.path) in RequestKeys(rs)
    {
      var i :| 0 <= i < |mine| && mine[i] == x;
      assert rs[i] in rs;
    }
    forall r | r in rs ensures (r.kind, r.path) in LockedKeys(locked) {
      var i :| 0 <= i < |rs| && rs[i] == r;
      assert mine[i] in mine;
    }
    assert RequestKeys(rs) == LockedKeys(locked);
  }

  // ---- One package ----------------------------------------------------------------------------------------

  /** Where the checker looks for a local package, and the version it finds there, are where the builder looks. */
  lemma ResolvesAlike(host: Host, p: PackageRequest, q: LockedPackage)
    requires !p.source.Npm? && q.source == p.source
    ensures var at := InstalledRoot(host, p, q);
      (Accepts(p.requirement, q.resolved) && at.Ok?
       && (if p.source.Builtin? then Some(q.resolved)
           else ManifestVersion(host, at.value, p.source.package)) == Some(q.resolved))
      <==> Resolve(host, p).Ok? && Resolve(host, p).value.1 == q.resolved
    ensures Resolve(host, p).Ok? && Resolve(host, p).value.1 == q.resolved ==>
      InstalledRoot(host, p, q) == Ok(Resolve(host, p).value.0) && Accepts(p.requirement, q.resolved)
  {
    hide Accepts, WorkspaceRoot, ManifestVersion;
  }

  /** The request resolves, to the locked version. */
  predicate ResolvesTo(host: Host, p: PackageRequest, q: LockedPackage) {
    q.source == p.source && Resolve(host, p).Ok? && Resolve(host, p).value.1 == q.resolved
  }

  lemma SupportedIff(host: Host, p: PackageRequest, q: LockedPackage)
    requires q.id == p.id && q.artifact == q.installed
    ensures var (mine, problems) := if Resolve(host, p).Ok? then LockResources(host, p.id, Resolve(host, p).value.0,
        p.resources) else ([], []);
      (Supported(host, p).Some? && Supported(host, p).value.1 == NormalizeLocked(q))
      <==> ResolvesTo(host, p, q) && TreeHash(host, p, Resolve(host, p).value.0) == Some(q.installed) && problems == []
           && SortBy(mine, LockedByKindAndPath()) == SortBy(q.resources, LockedByKindAndPath())
    ensures Supported(host, p).Some? ==> Resolve(host, p).Ok? && Supported(host, p).value.0 == Resolve(host, p).value.0
  {
    hide Resolve, TreeHash, LockResources, SortBy;
  }

  lemma CheckedIff(host: Host, p: PackageRequest, q: LockedPackage)
    requires !p.source.Npm?
    ensures CheckPackage(host, p, q).Ok? <==>
      ResolvesTo(host, p, q) && TreeHash(host, p, Resolve(host, p).value.0) == Some(q.installed)
      && RequestKeys(p.resources) == LockedKeys(q.resources)
    ensures CheckPackage(host, p, q).Ok? ==> CheckPackage(host, p, q) == Ok(Resolve(host, p).value.0)
  {
    if q.source == p.source { ResolvesAlike(host, p, q); }
    hide Resolve, InstalledRoot, Accepts, ManifestVersion, TreeHash;
  }

  /** The checker is content with a locked package exactly when it is, up to order, the one the builder locks. */
  lemma FitsIff(host: Host, p: PackageRequest, q: LockedPackage)
    requires RequestValid(host, p) && LockedValid(host, q) && q.id == p.id && !p.source.Npm?
    ensures Fits(host, p, q) <==> Supported(host, p).Some? && Supported(host, p).value.1 == NormalizeLocked(q)
    ensures Fits(host, p, q) ==> CheckPackage(host, p, q) == Ok(Supported(host, p).value.0)
  {
    assert ResolvesTo(host, p, q) ==> q.artifact == q.installed;
    CheckedIff(host, p, q);
    if q.artifact == q.installed { SupportedIff(host, p, q); }
    if ResolvesTo(host, p, q) {
      ExportsMatchIff(host, p.id, Resolve(host, p).value.0, p.resources, q.resources);
    }
    hide Supported, CheckPackage, Resolve, TreeHash, LockResources, SortBy, DistinctBy, NormalizeLocked;
    if q.source != p.source { SupportedKeepsSource(host, p); NormalizeKeepsSource(q); }
  }

  lemma NormalizeKeepsSource(q: LockedPackage)
    ensures NormalizeLocked(q).source == q.source && NormalizeLocked(q).id == q.id
  {}

  lemma SupportedKeepsSource(host: Host, p: PackageRequest)
    ensures Supported(host, p).Some? ==>
        Supported(host, p).value.1.source == p.source && Supported(host, p).value.1.id == p.id
  {
    hide Resolve, TreeHash, LockResources;
  }

  // ---- All packages ---------------------------------------------------------------------------------------

  /** A locked package of the builder has distinct exports. */
  lemma SupportedIsDistinct(host: Host, p: PackageRequest)
    requires RequestValid(host, p) && Supported(host, p).Some?
    ensures DistinctBy(Supported(host, p).value.1.resources, LockedByKindAndPath())
  {
    var (root, resolved) := Resolve(host, p).value;
    ResourcesLocked(host, p.id, root, p.resources);
    var mine := LockResources(host, p.id, root, p.resources).0;
    hide Resolve, LockResources, TreeHash;
    SortedIsDistinct(mine, LockedByKindAndPath());
    hide DistinctBy, SortBy;
  }

  /** A building step adds no problem exactly when the tree supports the request and its exports are free. */
  lemma BuildStepIff(host: Host, p: PackageRequest, b: Building)
    requires RequestValid(host, p)
    ensures var after := BuildStep(host, p, b);
      var found := Supported(host, p);
      && (after.problems == [] <==>
            b.problems == [] && found.Some? && Claimable(host, found.value.0, found.value.1.resources, b.owners.Keys))
      && (after.problems == [] ==>
            after.locked == b.locked + [found.value.1]
            && after.owners.Keys == b.owners.Keys + Claimed(host, found.value.0, found.value.1.resources))
  {
    hide RequestValid, Claimable, Claimed, DistinctBy, SortBy;
    RefusalsHaveReasons(host, p);
    if Supported(host, p).Some? {
      var (root, package) := Supported(host, p).value;
      SupportedIsDistinct(host, p);
      ClaimsIff(host, root, p.id, package.resources, Claims(b.owners, [], []));
    }
    hide ClaimAll, LockResources, TreeHash;
  }

  /** No error without a problem. */
  lemma RefusalsHaveReasons(host: Host, p: PackageRequest)
    ensures Resolve(host, p).Err? ==> Resolve(host, p).problems != []
    ensures Resolve(host, p).Ok? ==>
      var locked := LockLocal(host, p, Resolve(host, p).value.0, Resolve(host, p).value.1);
          locked.Err? ==> locked.problems != []
  {
    hide LockResources, TreeHash, Accepts, ManifestVersion, WorkspaceRoot;
  }

  /** A checking step adds no problem exactly when the locked package fits and its exports are free. */
  lemma CheckingStepIff(host: Host, lock: seq<LockedPackage>, p: PackageRequest, q: LockedPackage, c: Checking)
    requires FindLocked(lock, p.id) == Some(q) && LockedValid(host, q)
    ensures var after := CheckStep(host, lock, p, c);
      var root := if CheckPackage(host, p, q).Ok? then CheckPackage(host, p, q).value else "";
      && (after.problems == [] <==>
          c.problems == [] && Fits(host, p, q) && Claimable(host, root, q.resources, c.owners.Keys))
      && (after.problems == [] ==>
            && after.owners.Keys == c.owners.Keys + Claimed(host, root, q.resources)
            && after.packages == c.packages
               + [ResolvedPackage(q.id, SourceKind(q.source), q.source.package, q.resolved, root, q.installed)]
            && after.resources == c.resources + Granted(host, q.id, root, q.resources))
  {
    hide Claimable, Claimed, DistinctBy, Intact;
    ChecksHaveReasons(host, p, q);
    if CheckPackage(host, p, q).Ok? {
      ChecksIff(host, CheckPackage(host, p, q).value, p.id, q.resources, Claims(c.owners, [], []));
      assert [] + q.resources == q.resources;
    }
    hide CheckResources, CheckPackage;
  }

  lemma ChecksHaveReasons(host: Host, p: PackageRequest, q: LockedPackage)
    ensures CheckPackage(host, p, q).Err? ==> CheckPackage(host, p, q).problems != []
  {
    hide TreeHash, Accepts, ManifestVersion, WorkspaceRoot;
  }

  lemma SortingKeepsClaims(host: Host, root: string, q: LockedPackage, taken: set<string>)
    ensures Claimable(host, root, NormalizeLocked(q).resources, taken) <==> Claimable(host, root, q.resources, taken)
    ensures Claimed(host, root, NormalizeLocked(q).resources) == Claimed(host, root, q.resources)
  {
    hide CanonicalOf;
    SortedElements(q.resources, LockedByKindAndPath());
    hide SortBy;
  }

  /** The locked packages of the requests, in request order and with sorted exports. */
  function Expected(lock: seq<LockedPackage>, ps: seq<PackageRequest>): (r: seq<LockedPackage>)
    requires forall p :: p in ps ==> LocksId(lock, p.id)
    ensures |r| == |ps| && forall i :: 0 <= i < |ps| ==> r[i] == NormalizeLocked(FindLocked(lock, ps[i].id).value)
  {
    seq(|ps|, i requires 0 <= i < |ps| => NormalizeLocked(FindLocked(lock, ps[i].id).value))
  }

  ghost predicate Comparable(host: Host, lock: seq<LockedPackage>, ps: seq<PackageRequest>) {
    && (forall p :: p in ps ==> RequestValid(host, p) && !p.source.Npm? && LocksId(lock, p.id))
    && (forall q :: q in lock ==> LockedValid(host, q))
  }

  /** Builder and checker stand at the same point: no problem for the checker exactly when the builder has
      none and locked what was expected. */
  ghost predicate InStep(b: Building, c: Checking, expected: seq<LockedPackage>) {
    && (b.problems == [] ==> |b.locked| == |expected|)
    && (c.problems == [] <==> b.problems == [] && b.locked == expected)
    && (c.problems == [] ==> b.owners.Keys == c.owners.Keys)
  }

  lemma StepKeepsInStep(host: Host, lock: seq<LockedPackage>, p: PackageRequest, q: LockedPackage, b: Building,
                        c: Checking,
                        expected: seq<LockedPackage>)
    requires RequestValid(host, p) && !p.source.Npm? && FindLocked(lock, p.id) == Some(q) && LockedValid(host, q)
    requires InStep(b, c, expected)
    ensures InStep(BuildStep(host, p, b), CheckStep(host, lock, p, c), expected + [NormalizeLocked(q)])
  {
    hide BuildStep, CheckStep, RequestValid, LockedValid, NormalizeLocked, Supported, Fits, CheckPackage, Claimable,
        Claimed;
    BuildStepIff(host, p, b);
    CheckingStepIff(host, lock, p, q, c);
    FitsIff(host, p, q);
    var b1 := BuildStep(host, p, b);
    if b1.problems == [] { LastDiffers(b.locked, expected, Supported(host, p).value.1, NormalizeLocked(q)); }
    if Fits(host, p, q) {
      var root := CheckPackage(host, p, q).value;
      SortingKeepsClaims(host, root, q, b.owners.Keys);
      SortingKeepsClaims(host, root, q, c.owners.Keys);
    }
  }

  lemma LastDiffers<T>(xs: seq<T>, ys: seq<T>, x: T, y: T)
    requires |xs| == |ys|
    ensures xs + [x] == ys + [y] <==> xs == ys && x == y
  {
    assert (xs + [x])[..|xs|] == xs && (ys + [y])[..|ys|] == ys;
    assert (xs + [x])[|xs|] == x && (ys + [y])[|ys|] == y;
  }

  lemma ExpectedSnoc(lock: seq<LockedPackage>, ps: seq<PackageRequest>)
    requires ps != [] && forall p :: p in ps ==> LocksId(lock, p.id)
    ensures (forall p :: p in ps[..|ps| - 1] ==> LocksId(lock, p.id)) && LocksId(lock, ps[|ps| - 1].id)
    ensures Expected(lock, ps) ==
        Expected(lock, ps[..|ps| - 1]) + [NormalizeLocked(FindLocked(lock, ps[|ps| - 1].id).value)]
  {
    hide NormalizeLocked, LocksId, FindLocked;
  }

  lemma ComparableFront(host: Host, lock: seq<LockedPackage>, ps: seq<PackageRequest>)
    requires ps != [] && Comparable(host, lock, ps)
    ensures Comparable(host, lock, ps[..|ps| - 1])
    ensures var p := ps[|ps| - 1];
      RequestValid(host, p) && !p.source.Npm? && FindLocked(lock, p.id).Some? &&
          LockedValid(host, FindLocked(lock, p.id).value)
  {
    hide RequestValid, LockedValid, LocksId;
    assert ps[|ps| - 1] in ps && forall x :: x in ps[..|ps| - 1] ==> x in ps;
  }

  /** The passes agree on every prefix. */
  lemma {:induction false} PassesAgree(host: Host, lock: seq<LockedPackage>, ps: seq<PackageRequest>)
    requires Comparable(host, lock, ps)
    ensures InStep(BuildAll(host, ps), CheckAll(host, lock, ps), Expected(lock, ps))
  {
    if ps != [] {
      var n := |ps| - 1;
      ComparableFront(host, lock, ps);
      ExpectedSnoc(lock, ps);
      var b, c := BuildAll(host, ps[..n]), CheckAll(host, lock, ps[..n]);
      assert BuildAll(host, ps) == BuildStep(host, ps[n], b) &&
          CheckAll(host, lock, ps) == CheckStep(host, lock, ps[n], c);
      hide BuildAll, CheckAll, RequestValid, LockedValid, BuildStep, CheckStep, NormalizeLocked, InStep, FindLocked;
      PassesAgree(host, lock, ps[..n]);
      StepKeepsInStep(host, lock, ps[n], FindLocked(lock, ps[n].id).value, b, c, Expected(lock, ps[..n]));
    }
  }

  // ---- Agreement ------------------------------------------------------------------------------------------

  /** Tree hashes are digests in their written form. */
  ghost predicate HashesAreDigests(host: Host) {
    && (forall at: string :: host.hashTree(at).Some? ==> Sha256(host.hashTree(at).value))
    && (forall at: string, rs: seq<ResourceRequest> ::
        host.hashBuiltin(at, rs).Some? ==> Sha256(host.hashBuiltin(at, rs).value))
  }

  ghost predicate LocalOnly(b: Bundle) { forall p :: p in b.packages ==> !p.source.Npm? }

  function NormalizedPackages(ps: seq<LockedPackage>): (r: seq<LockedPackage>)
    ensures |r| == |ps| && forall i :: 0 <= i < |ps| ==> r[i] == NormalizeLocked(ps[i])
  {
    seq(|ps|, i requires 0 <= i < |ps| => NormalizeLocked(ps[i]))
  }

  /** The lock with its packages and exports in the builder's order. */
  function NormalizeLock(lock: LockDocument): LockDocument {
    lock.(packages := SortBy(NormalizedPackages(lock.packages), LockedById()))
  }

  lemma NormalizedRequestIsValid(host: Host, p: PackageRequest)
    requires RequestValid(host, p)
    ensures RequestValid(host, NormalizeRequest(p)) && NormalizeRequest(p).id == p.id
    ensures NormalizeRequest(p).source == p.source
  {
    hide SafePath, PortableId, PackageIdentity, ExactRequirement;
    SortedIsDistinct(p.resources, ByKindAndPath());
    SortedElements(p.resources, ByKindAndPath());
    hide SortBy, DistinctBy;
  }

  lemma NormalizedIsValid(host: Host, b: Bundle)
    requires BundleValid(host, b)
    ensures var ps := Normalize(b).packages;
      && DistinctBy(ps, ById()) && (forall p :: p in ps ==> RequestValid(host, p)) &&
          (LocalOnly(b) ==> forall p :: p in ps ==> !p.source.Npm?)
  {
    var sorted := SortBy(b.packages, ById());
    var ps := Normalize(b).packages;
    SortedElements(b.packages, ById());
    SortedIsDistinct(b.packages, ById());
    hide SortBy, RequestValid;
    forall p | p in ps ensures RequestValid(host, p) && (LocalOnly(b) ==> !p.source.Npm?) {
      var i :| 0 <= i < |ps| && ps[i] == p;
      assert sorted[i] in b.packages;
      NormalizedRequestIsValid(host, sorted[i]);
    }
    forall i, j | 0 <= i < j < |ps|
      ensures ById()(ps[i]) != ById()(ps[j]) { assert ById()(sorted[i]) != ById()(sorted[j]); }
  }

  /** What a problem-free build holds, request by request. */
  ghost predicate Holds(host: Host, ps: seq<PackageRequest>, locked: seq<LockedPackage>) {
    |locked| == |ps| &&
        forall i :: 0 <= i < |ps| ==> Supported(host, ps[i]).Some? && locked[i] == Supported(host, ps[i]).value.1
  }

  lemma HoldsSnoc(host: Host, ps: seq<PackageRequest>, front: seq<LockedPackage>, last: LockedPackage)
    requires ps != [] && Holds(host, ps[..|ps| - 1], front)
    requires Supported(host, ps[|ps| - 1]).Some? && last == Supported(host, ps[|ps| - 1]).value.1
    ensures Holds(host, ps, front + [last])
  {
    hide Supported;
    var n := |ps| - 1;
    forall i | 0 <= i < |ps|
      ensures Supported(host, ps[i]).Some? && (front + [last])[i] == Supported(host, ps[i]).value.1
    {
      if i < n { assert ps[..n][i] == ps[i]; }
    }
  }

  lemma {:induction false} BuiltIsSupported(host: Host, ps: seq<PackageRequest>)
    requires BuildAll(host, ps).problems == [] && forall p :: p in ps ==> RequestValid(host, p)
    ensures Holds(host, ps, BuildAll(host, ps).locked)
  {
    hide RequestValid, BuildStep, Supported, Claimable, Claimed;
    if ps != [] {
      var n := |ps| - 1;
      var b := BuildAll(host, ps[..n]);
      assert ps[n] in ps && forall x :: x in ps[..n] ==> x in ps;
      assert BuildAll(host, ps) == BuildStep(host, ps[n], b);
      hide BuildAll, Holds;
      BuildStepIff(host, ps[n], b);
      BuiltIsSupported(host, ps[..n]);
      HoldsSnoc(host, ps, b.locked, Supported(host, ps[n]).value.1);
    }
  }

  lemma SupportedParts(host: Host, p: PackageRequest)
    requires Supported(host, p).Some?
    ensures Resolve(host, p).Ok?
    ensures var (root, resolved) := Resolve(host, p).value;
      var q := Supported(host, p).value.1;
      var (mine, problems) := LockResources(host, p.id, root, p.resources);
      && problems == [] && TreeHash(host, p, root) == Some(q.installed) && q.id == p.id && q.source == p.source &&
          q.resolved == resolved
      && q.artifact == q.installed && q.resources == SortBy(mine, LockedByKindAndPath())
  {
    hide Resolve, LockResources, TreeHash, SortBy;
  }

  lemma HashedIsValid(host: Host, root: string, path: string)
    requires HashesAreDigests(host) && ResourceHash(host, root, path).Some?
    ensures SafePath(path) && Sha256(ResourceHash(host, root, path).value)
  {
    hide SafePath, Sha256;
  }

  lemma LockedExportsAreValid(host: Host, id: string, root: string, rs: seq<ResourceRequest>, r: LockedResource)
    requires DistinctBy(rs, ByKindAndPath()) && HashesAreDigests(host)
    requires LockResources(host, id, root, rs).1 == [] && r in LockResources(host, id, root, rs).0
    ensures SafePath(r.path) && Sha256(r.integrity)
  {
    hide *;
    ResourcesLocked(host, id, root, rs);
    var mine := LockResources(host, id, root, rs).0;
    var i :| 0 <= i < |mine| && mine[i] == r;
    LockedAt(host, root, rs, mine, i);
    HashedIsValid(host, root, rs[i].path);
  }

  lemma SupportedExportsAreValid(host: Host, p: PackageRequest, r: LockedResource)
    requires DistinctBy(p.resources, ByKindAndPath()) && HashesAreDigests(host) && Supported(host, p).Some?
    requires r in Supported(host, p).value.1.resources
    ensures SafePath(r.path) && Sha256(r.integrity)
  {
    hide *;
    SupportedParts(host, p);
    var root := Resolve(host, p).value.0;
    SortedElements(LockResources(host, p.id, root, p.resources).0, LockedByKindAndPath());
    LockedExportsAreValid(host, p.id, root, p.resources, r);
  }

  lemma LockedAt(host: Host, root: string, rs: seq<ResourceRequest>, mine: seq<LockedResource>, i: nat)
    requires LocksEach(host, root, rs, mine) && i < |mine|
    ensures i < |rs| && mine[i].path == rs[i].path && ResourceHash(host, root, rs[i].path) == Some(mine[i].integrity)
  {}

  lemma SupportedIsValid(host: Host, p: PackageRequest)
    requires RequestValid(host, p) && HashesAreDigests(host) && Supported(host, p).Some?
    ensures LockedValid(host, Supported(host, p).value.1)
  {
    SupportedParts(host, p);
    SupportedIsDistinct(host, p);
    ResolvedIsExact(host, p);
    var q := Supported(host, p).value.1;
    hide Supported, Resolve, LockResources, SortBy, DistinctBy, Sha256, SafePath, PortableId, ExactVersion,
        ExactRequirement, PackageIdentity;
    assert Sha256(q.installed);
    assert Planning.Blank("");
    forall r | r in q.resources
      ensures SafePath(r.path) && Sha256(r.integrity) { SupportedExportsAreValid(host, p, r); }
  }

  lemma ResolvedIsExact(host: Host, p: PackageRequest)
    ensures Resolve(host, p).Ok? ==> ExactVersion(Resolve(host, p).value.1) && !p.source.Npm?
  {
    hide ExactVersion, WorkspaceRoot, Planning.IsSpace;
  }

  lemma NormalizedLockedIsValid(host: Host, q: LockedPackage)
    ensures LockedValid(host, NormalizeLocked(q)) <==> LockedValid(host, q)
  {
    hide SafePath, PortableId, ExactVersion, Sha256;
    SortedIsDistinct(q.resources, LockedByKindAndPath());
    SortedElements(q.resources, LockedByKindAndPath());
    hide SortBy, DistinctBy;
  }

  lemma {:induction false} LackingIff(ps: seq<PackageRequest>, locked: seq<LockedPackage>)
    ensures Lacking(ps, locked) == [] <==> forall p :: p in ps ==> LocksId(locked, p.id)
  {
    hide LocksId;
    if ps != [] {
      LackingIff(ps[..|ps| - 1], locked);
      assert ps == ps[..|ps| - 1] + [ps[|ps| - 1]];
    }
  }

  lemma {:induction false} UndeclaredIff(locked: seq<LockedPackage>, ps: seq<PackageRequest>)
    ensures Undeclared(locked, ps) == [] <==> forall q :: q in locked ==> NamesId(ps, q.id)
  {
    hide NamesId;
    if locked != [] {
      UndeclaredIff(locked[..|locked| - 1], ps);
      assert locked == locked[..|locked| - 1] + [locked[|locked| - 1]];
    }
  }

  lemma OnlyOnce<T>(xs: seq<T>, key: T -> Key, i: nat, j: nat)
    requires DistinctBy(xs, key) && i < |xs| && j < |xs| && key(xs[i]) == key(xs[j])
    ensures i == j
  {}

  /** With distinct ids the search finds the package itself. */
  lemma FindsItself(lock: seq<LockedPackage>, q: LockedPackage)
    requires DistinctBy(lock, LockedById()) && q in lock
    ensures FindLocked(lock, q.id) == Some(q)
  {
    hide DistinctBy;
    var found := FindLocked(lock, q.id).value;
    var i :| 0 <= i < |lock| && lock[i] == q;
    var j :| 0 <= j < |lock| && lock[j] == found;
    OnlyOnce(lock, LockedById(), i, j);
  }

  lemma SameIdsDistinct<S, T>(xs: seq<S>, ys: seq<T>, key: S -> Key, other: T -> Key)
    requires DistinctBy(xs, key) && |xs| == |ys| && forall i :: 0 <= i < |xs| ==> key(xs[i]) == other(ys[i])
    ensures DistinctBy(ys, other)
  {}

  lemma ExpectedElements(lock: seq<LockedPackage>, ps: seq<PackageRequest>, x: LockedPackage)
    requires DistinctBy(lock, LockedById())
    requires (forall p :: p in ps ==> LocksId(lock, p.id)) && forall q :: q in lock ==> NamesId(ps, q.id)
    ensures x in Expected(lock, ps) <==> x in NormalizedPackages(lock)
  {
    hide DistinctBy, NormalizeLocked;
    var (xs, ys) := (Expected(lock, ps), NormalizedPackages(lock));
    if x in xs {
      var i :| 0 <= i < |xs| && xs[i] == x;
      var q := FindLocked(lock, ps[i].id).value;
      var k :| 0 <= k < |lock| && lock[k] == q;
      assert ys[k] == x;
    }
    if x in ys {
      var k :| 0 <= k < |ys| && ys[k] == x;
      assert lock[k] in lock;
      var p :| p in ps && p.id == lock[k].id;
      var i :| 0 <= i < |ps| && ps[i] == p;
      FindsItself(lock, lock[k]);
      assert xs[i] == x;
    }
  }

  /** When the ids are the same and distinct, the expected packages are the lock's, in another order. */
  lemma ExpectedIsTheLock(lock: seq<LockedPackage>, ps: seq<PackageRequest>)
    requires DistinctBy(lock, LockedById()) && DistinctBy(ps, ById())
    requires (forall p :: p in ps ==> LocksId(lock, p.id)) && forall q :: q in lock ==> NamesId(ps, q.id)
    ensures SortBy(Expected(lock, ps), LockedById()) == SortBy(NormalizedPackages(lock), LockedById())
  {
    hide DistinctBy, LocksId, NamesId, SortBy;
    var (xs, ys) := (Expected(lock, ps), NormalizedPackages(lock));
    forall x ensures x in xs <==> x in ys { ExpectedElements(lock, ps, x); }
    SameIdsDistinct(ps, xs, ById(), LockedById());
    SameIdsDistinct(lock, ys, LockedById(), LockedById());
    SameElementsSortAlike(xs, ys, LockedById());
  }

  /** Every part of the check, told without lists of problems. */
  ghost predicate Passes(host: Host, b: Bundle, lock: LockDocument) {
    var ps := Normalize(b).packages;
    && BundleValid(host, b) && LockValid(host, lock) && lock.contract == Normalize(b)
    && (forall p :: p in ps ==> LocksId(lock.packages, p.id)) && (forall q :: q in lock.packages ==> NamesId(ps, q.id))
    && CheckAll(host, lock.packages, ps).problems == []
  }

  lemma NothingInAll(a: seq<Problem>, b: seq<Problem>, c: seq<Problem>, d: seq<Problem>)
    ensures a + b + c + d == [] <==> a == [] && b == [] && c == [] && d == []
  {}

  /** The report of a parsed contract and a valid lock. */
  lemma InspectParts(host: Host, b: Bundle, lock: LockDocument)
    ensures var ps := Normalize(b).packages;
      var c := CheckAll(host, lock.packages, ps);
      var drift := (if lock.contract != Normalize(b) then [Problem(LockDrift, "")] else [])
        + Lacking(ps, lock.packages) + Undeclared(lock.packages, ps);
      Inspect(host, Some(b), Some(lock))
      == if DocumentProblems(host, lock) != [] then Reported([], [],
          BundleProblems(host, b) + DocumentProblems(host, lock))
         else Reported(c.packages, c.resources,
             BundleProblems(host, b) + drift + c.problems + AmbientProblems(b.ambient))
  {
    hide BundleProblems, DocumentProblems, CheckAll, Lacking, Undeclared, AmbientProblems, Reported, NormalizeAll,
        SortBy;
    assert BundleProblems(host, b) + [] == BundleProblems(host, b);
  }

  lemma OkIffPasses(host: Host, b: Bundle, lock: LockDocument)
    ensures Inspect(host, Some(b), Some(lock)).ok <==> Passes(host, b, lock)
    ensures Inspect(host, Some(b), Some(lock)).ok ==>
      Inspect(host, Some(b), Some(lock)).packages == CheckAll(host, lock.packages, Normalize(b).packages).packages
      && Inspect(host, Some(b), Some(lock)).resources == CheckAll(host, lock.packages, Normalize(b).packages).resources
  {
    hide BundleProblems, DocumentProblems, LockValid, CheckAll, Lacking, Undeclared, Normalize, AmbientProblems,
        Inspect, RequestValid, DistinctBy;
    var ps := Normalize(b).packages;
    BundleValidIff(host, b);
    LockValidIff(host, lock);
    LackingIff(ps, lock.packages);
    UndeclaredIff(lock.packages, ps);
    InspectParts(host, b, lock);
    assert BundleValid(host, b) ==> AmbientProblems(b.ambient) == [];
    hide BundleValid, LocksId, NamesId;
    var drift := (if lock.contract != Normalize(b) then [Problem(LockDrift, "")] else [])
      + Lacking(ps, lock.packages) + Undeclared(lock.packages, ps);
    NothingInAll(if lock.contract != Normalize(b) then [Problem(LockDrift, "")]
                 else [], Lacking(ps, lock.packages), Undeclared(lock.packages, ps), []);
    assert drift + [] == drift;
    NothingInAll(BundleProblems(host, b), drift, CheckAll(host, lock.packages, ps).problems,
        AmbientProblems(b.ambient));
    NothingInAll(BundleProblems(host, b), DocumentProblems(host, lock), [], []);
    assert BundleProblems(host, b) + DocumentProblems(host, lock) + [] + [] ==
        BundleProblems(host, b) + DocumentProblems(host, lock);
  }

  /** The builder's success, told the same way. */
  lemma BuildIff(host: Host, b: Bundle)
    ensures var built := BuildAll(host, Normalize(b).packages);
      && (Build(host, Some(b)).Ok? <==> BundleValid(host, b) && built.problems == [])
      && (Build(host, Some(b)).Ok? ==>
            Build(host, Some(b)).value == LockDocument(LOCK_KIND, Normalize(b), SortBy(built.locked, LockedById())))
  {
    BundleValidIff(host, b);
    hide BundleProblems, BundleValid, BuildAll, Normalize, SortBy;
  }

  /** Passing on valid, comparable content means the builder locks the lock's packages. */
  lemma PassingIsLocked(host: Host, lock: seq<LockedPackage>, ps: seq<PackageRequest>)
    requires Comparable(host, lock, ps) && CheckAll(host, lock, ps).problems == []
    requires DistinctBy(lock, LockedById()) && DistinctBy(ps, ById()) && forall q :: q in lock ==> NamesId(ps, q.id)
    ensures BuildAll(host, ps).problems == []
    ensures SortBy(BuildAll(host, ps).locked, LockedById()) == SortBy(NormalizedPackages(lock), LockedById())
  {
    hide BuildAll, CheckAll, DistinctBy, RequestValid, LockedValid, SortBy, LocksId, NamesId;
    PassesAgree(host, lock, ps);
    ExpectedIsTheLock(lock, ps);
  }

  lemma PassingIsBuilt(host: Host, b: Bundle, lock: LockDocument)
    requires LocalOnly(b) && Passes(host, b, lock)
    ensures Build(host, Some(b)) == Ok(NormalizeLock(lock))
  {
    hide BundleValid, Normalize, BuildAll, CheckAll, Build, DistinctBy, RequestValid, LockedValid, SortBy, LocalOnly,
        LocksId, NamesId, NormalizedPackages;
    NormalizedIsValid(host, b);
    BuildIff(host, b);
    PassingIsLocked(host, lock.packages, Normalize(b).packages);
  }

  /** What the builder locked is valid lock content. */
  lemma BuiltIsValid(host: Host, ps: seq<PackageRequest>)
    requires HashesAreDigests(host) && DistinctBy(ps, ById()) && (forall p :: p in ps ==> RequestValid(host, p))
    requires BuildAll(host, ps).problems == []
    ensures var locked := BuildAll(host, ps).locked;
      && |locked| == |ps| && DistinctBy(locked, LockedById())
      && forall i :: 0 <= i < |ps| ==> locked[i].id == ps[i].id && LockedValid(host, locked[i])
  {
    var locked := BuildAll(host, ps).locked;
    BuiltIsSupported(host, ps);
    hide BuildAll, DistinctBy, RequestValid, LockedValid, Supported, HashesAreDigests;
    forall i | 0 <= i < |ps| ensures locked[i].id == ps[i].id && LockedValid(host, locked[i]) {
      assert ps[i] in ps;
      SupportedKeepsSource(host, ps[i]);
      SupportedIsValid(host, ps[i]);
    }
    SameIdsDistinct(ps, locked, ById(), LockedById());
  }

  /** Lists that sort alike by id have the same elements, and distinct ids if one of them has. */
  lemma SortingAlike(xs: seq<LockedPackage>, ys: seq<LockedPackage>)
    requires SortBy(xs, LockedById()) == SortBy(ys, LockedById())
    ensures forall x :: x in xs <==> x in ys
    ensures DistinctBy(xs, LockedById()) ==> DistinctBy(ys, LockedById())
  {
    SortedElements(xs, LockedById());
    SortedElements(ys, LockedById());
    SortedIsDistinct(xs, LockedById());
    SortedIsDistinct(ys, LockedById());
    hide SortBy, DistinctBy;
    forall x ensures x in xs <==> x in ys { assert x in SortBy(xs, LockedById()) <==> x in SortBy(ys, LockedById()); }
  }

  ghost predicate Reordered(lock: seq<LockedPackage>, locked: seq<LockedPackage>) {
    forall x :: x in locked <==> x in NormalizedPackages(lock)
  }

  lemma LockOfLocked(host: Host, lock: seq<LockedPackage>, ps: seq<PackageRequest>, locked: seq<LockedPackage>,
                     q: LockedPackage)
    requires |locked| == |ps| && forall i :: 0 <= i < |ps| ==> locked[i].id == ps[i].id && LockedValid(host, locked[i])
    requires Reordered(lock, locked) && q in lock
    ensures LockedValid(host, q) && NamesId(ps, q.id)
  {
    hide LockedValid, NormalizeLocked;
    var k :| 0 <= k < |lock| && lock[k] == q;
    assert NormalizedPackages(lock)[k] == NormalizeLocked(q);
    assert NormalizeLocked(q) in locked;
    var i :| 0 <= i < |locked| && locked[i] == NormalizeLocked(q);
    NormalizedLockedIsValid(host, q);
    NormalizeKeepsSource(q);
    assert ps[i] in ps;
  }

  lemma LockedOfLock(lock: seq<LockedPackage>, ps: seq<PackageRequest>, locked: seq<LockedPackage>, i: nat)
    requires i < |locked| == |ps| && locked[i].id == ps[i].id
    requires Reordered(lock, locked) && DistinctBy(lock, LockedById())
    ensures LocksId(lock, ps[i].id) && NormalizeLocked(FindLocked(lock, ps[i].id).value) == locked[i]
  {
    hide NormalizeLocked, DistinctBy;
    assert locked[i] in locked;
    var ys := NormalizedPackages(lock);
    assert locked[i] in ys;
    var k :| 0 <= k < |ys| && ys[k] == locked[i];
    NormalizeKeepsSource(lock[k]);
    assert lock[k] in lock;
    FindsItself(lock, lock[k]);
  }

  lemma ReorderedIsDistinct(lock: seq<LockedPackage>, locked: seq<LockedPackage>)
    requires DistinctBy(locked, LockedById())
    requires SortBy(locked, LockedById()) == SortBy(NormalizedPackages(lock), LockedById())
    ensures DistinctBy(lock, LockedById()) && Reordered(lock, locked)
  {
    hide SortBy, DistinctBy, NormalizeLocked;
    var ys := NormalizedPackages(lock);
    SortingAlike(locked, ys);
    forall i | 0 <= i < |lock| ensures LockedById()(ys[i]) == LockedById()(lock[i]) { NormalizeKeepsSource(lock[i]); }
    SameIdsDistinct(ys, lock, LockedById(), LockedById());
  }

  lemma ExpectedPointwise(lock: seq<LockedPackage>, ps: seq<PackageRequest>, locked: seq<LockedPackage>)
    requires |locked| == |ps| && forall i :: 0 <= i < |ps| ==>
      LocksId(lock, ps[i].id) && NormalizeLocked(FindLocked(lock, ps[i].id).value) == locked[i]
    ensures (forall p :: p in ps ==> LocksId(lock, p.id)) && locked == Expected(lock, ps)
  {
    hide NormalizeLocked, LocksId, FindLocked;
    forall p | p in ps ensures LocksId(lock, p.id) {
      var i :| 0 <= i < |ps| && ps[i] == p;
      assert LocksId(lock, ps[i].id);
    }
  }

  /** A lock that is, up to order, what was built has the built packages for the requested ids, and no others. */
  lemma ReorderedIsExpected(host: Host, lock: seq<LockedPackage>, ps: seq<PackageRequest>, locked: seq<LockedPackage>)
    requires |locked| == |ps| && DistinctBy(locked, LockedById())
    requires forall i :: 0 <= i < |ps| ==> locked[i].id == ps[i].id && LockedValid(host, locked[i])
    requires SortBy(locked, LockedById()) == SortBy(NormalizedPackages(lock), LockedById())
    ensures DistinctBy(lock, LockedById()) && (forall q :: q in lock ==> LockedValid(host, q) && NamesId(ps, q.id))
    ensures (forall p :: p in ps ==> LocksId(lock, p.id)) && locked == Expected(lock, ps)
  {
    hide *;
    ReorderedIsDistinct(lock, locked);
    forall q | q in lock ensures LockedValid(host, q) && NamesId(ps, q.id) { LockOfLocked(host, lock, ps, locked, q); }
    forall i | 0 <= i < |ps|
      ensures LocksId(lock, ps[i].id) && FindLocked(lock, ps[i].id).Some? &&
          NormalizeLocked(FindLocked(lock, ps[i].id).value) == locked[i]
    {
      LockedOfLock(lock, ps, locked, i);
    }
    ExpectedPointwise(lock, ps, locked);
  }

  lemma BuiltIsPassing(host: Host, b: Bundle, lock: LockDocument)
    requires LocalOnly(b) && HashesAreDigests(host) && Build(host, Some(b)) == Ok(NormalizeLock(lock))
    ensures Passes(host, b, lock)
  {
    var ps := Normalize(b).packages;
    var built := BuildAll(host, ps);
    BuildIff(host, b);
    hide BundleValid, Normalize, BuildAll, CheckAll, Build, DistinctBy, RequestValid, LockedValid, SortBy, LocalOnly,
        HashesAreDigests, LocksId, NamesId;
    NormalizedIsValid(host, b);
    BuiltIsValid(host, ps);
    ReorderedIsExpected(host, lock.packages, ps, built.locked);
    PassesAgree(host, lock.packages, ps);
  }

  /** Builder and checker agree, for contracts of builtin and workspace packages on one unchanged tree:
      the checker accepts a lock exactly when the builder succeeds and the lock is its result up to order. */
  lemma BuilderAndCheckerAgree(host: Host, b: Bundle, lock: LockDocument)
    requires LocalOnly(b) && HashesAreDigests(host)
    ensures Inspect(host, Some(b), Some(lock)).ok <==> Build(host, Some(b)) == Ok(NormalizeLock(lock))
  {
    hide Build, Inspect, Passes, LocalOnly, HashesAreDigests, NormalizeLock;
    OkIffPasses(host, b, lock);
    if Passes(host, b, lock) { PassingIsBuilt(host, b, lock); }
    if Build(host, Some(b)) == Ok(NormalizeLock(lock)) { BuiltIsPassing(host, b, lock); }
  }

  lemma HeldIsNormal(host: Host, ps: seq<PackageRequest>, locked: seq<LockedPackage>, q: LockedPackage)
    requires Holds(host, ps, locked) && (forall p :: p in ps ==> RequestValid(host, p)) && q in locked
    ensures NormalizeLocked(q) == q
  {
    hide RequestValid, Supported, NormalizeLocked;
    var k :| 0 <= k < |locked| && locked[k] == q;
    assert ps[k] in ps;
    SupportedIsNormal(host, ps[k]);
  }

  lemma NormalPackages(ps: seq<LockedPackage>)
    requires forall q :: q in ps ==> NormalizeLocked(q) == q
    ensures NormalizedPackages(ps) == ps
  {
    hide NormalizeLocked;
  }

  /** What was built is in order already. */
  lemma BuiltIsNormal(host: Host, ps: seq<PackageRequest>, locked: seq<LockedPackage>)
    requires DistinctBy(locked, LockedById()) && Holds(host, ps, locked)
    requires forall p :: p in ps ==> RequestValid(host, p)
    ensures SortBy(NormalizedPackages(SortBy(locked, LockedById())), LockedById()) == SortBy(locked, LockedById())
  {
    hide SortBy, DistinctBy, RequestValid, Holds, NormalizeLocked;
    var sorted := SortBy(locked, LockedById());
    SortedElements(locked, LockedById());
    forall q | q in sorted ensures NormalizeLocked(q) == q { HeldIsNormal(host, ps, locked, q); }
    NormalPackages(sorted);
    SortTwice(locked, LockedById());
  }

  /** The checker accepts what was built, as it was built. */
  lemma BuiltLockIsAccepted(host: Host, b: Bundle, lock: LockDocument)
    requires LocalOnly(b) && HashesAreDigests(host) && Build(host, Some(b)) == Ok(lock)
    ensures Inspect(host, Some(b), Some(lock)).ok
  {
    hide BundleValid, Normalize, BuildAll, Build, DistinctBy, RequestValid, LockedValid, SortBy, Inspect, LocalOnly,
        HashesAreDigests, Holds, NormalizedPackages;
    var ps := Normalize(b).packages;
    BuildIff(host, b);
    NormalizedIsValid(host, b);
    BuiltIsValid(host, ps);
    BuiltIsSupported(host, ps);
    BuiltIsNormal(host, ps, BuildAll(host, ps).locked);
    BuilderAndCheckerAgree(host, b, lock);
  }

  lemma SortTwice<T>(xs: seq<T>, key: T -> Key)
    requires DistinctBy(xs, key)
    ensures SortBy(SortBy(xs, key), key) == SortBy(xs, key)
  {
    SortByForgetsOrder(xs, SortBy(xs, key), key);
  }

  lemma SupportedIsNormal(host: Host, p: PackageRequest)
    requires RequestValid(host, p) && Supported(host, p).Some?
    ensures NormalizeLocked(Supported(host, p).value.1) == Supported(host, p).value.1
  {
    SupportedParts(host, p);
    var root := Resolve(host, p).value.0;
    ResourcesLocked(host, p.id, root, p.resources);
    hide Supported, RequestValid, DistinctBy, SortBy;
    SortTwice(LockResources(host, p.id, root, p.resources).0, LockedByKindAndPath());
  }

  // ---- What a report holds -----------------------------------------------------------------------------------

  /** Reported packages are the requested ones, in order, each as its locked evidence says. */
  ghost predicate ReportsPackages(lock: seq<LockedPackage>, ps: seq<PackageRequest>, packages: seq<ResolvedPackage>) {
    |packages| == |ps| && forall i :: 0 <= i < |ps| ==>
      var q := FindLocked(lock, ps[i].id);
      && packages[i].id == ps[i].id && packages[i].package == ps[i].source.package &&
          packages[i].kind == SourceKind(ps[i].source)
      && q.Some? && packages[i].resolved == q.value.resolved && packages[i].integrity == q.value.installed
  }

  function ReportedExports(rs: seq<ResolvedResource>): set<(string, Kind, string)> {
    set r | r in rs :: (r.packageId, r.kind, r.path)
  }

  function RequestedExports(ps: seq<PackageRequest>): set<(string, Kind, string)> {
    set p, r | p in ps && r in p.resources :: (p.id, r.kind, r.path)
  }

  lemma ExportsSnoc(ps: seq<PackageRequest>, root: string, q: LockedPackage, host: Host, rs: seq<ResolvedResource>)
    requires ps != [] && q.id == ps[|ps| - 1].id && RequestKeys(ps[|ps| - 1].resources) == LockedKeys(q.resources)
    requires ReportedExports(rs) == RequestedExports(ps[..|ps| - 1])
    ensures ReportedExports(rs + Granted(host, q.id, root, q.resources)) == RequestedExports(ps)
  {
    var n := |ps| - 1;
    var more := Granted(host, q.id, root, q.resources);
    assert ps == ps[..n] + [ps[n]];
    forall x ensures x in ReportedExports(rs + more) <==> x in RequestedExports(ps) {
      if x in ReportedExports(rs + more) { LastExportIsRequested(ps[n], q, more, rs, host, root, x); }
      if x in RequestedExports(ps) { RequestedIsReported(ps, q, more, rs, host, root, x); }
    }
  }

  lemma LastExportIsRequested(p: PackageRequest, q: LockedPackage, more: seq<ResolvedResource>,
                              rs: seq<ResolvedResource>, host: Host, root: string, x: (string, Kind, string))
    requires more == Granted(host, q.id, root, q.resources) && q.id == p.id
    requires RequestKeys(p.resources) == LockedKeys(q.resources)
    requires x in ReportedExports(rs + more)
    ensures x in ReportedExports(rs) || exists r :: r in p.resources && x == (p.id, r.kind, r.path)
  {
    var y :| y in rs + more && (y.packageId, y.kind, y.path) == x;
    if y !in rs {
      var i :| 0 <= i < |more| && more[i] == y;
      assert q.resources[i] in q.resources && (y.kind, y.path) in LockedKeys(q.resources);
      assert (y.kind, y.path) in RequestKeys(p.resources);
    }
  }

  lemma RequestedIsReported(ps: seq<PackageRequest>, q: LockedPackage, more: seq<ResolvedResource>,
                            rs: seq<ResolvedResource>, host: Host, root: string, x: (string, Kind, string))
    requires ps != [] && more == Granted(host, q.id, root, q.resources) && q.id == ps[|ps| - 1].id
    requires RequestKeys(ps[|ps| - 1].resources) == LockedKeys(q.resources)
    requires ReportedExports(rs) == RequestedExports(ps[..|ps| - 1]) && x in RequestedExports(ps)
    ensures x in ReportedExports(rs + more)
  {
    var n := |ps| - 1;
    var p, r :| p in ps && r in p.resources && (p.id, r.kind, r.path) == x;
    assert ps == ps[..n] + [ps[n]];
    if p in ps[..n] {
      assert x in RequestedExports(ps[..n]);
      var y :| y in rs && (y.packageId, y.kind, y.path) == x;
      assert y in rs + more;
    } else {
      assert (r.kind, r.path) in LockedKeys(q.resources);
      var s :| s in q.resources && (s.kind, s.path) == (r.kind, r.path);
      var i :| 0 <= i < |q.resources| && q.resources[i] == s;
      assert more[i] in rs + more;
    }
  }

  lemma FittingKeys(host: Host, p: PackageRequest, q: LockedPackage)
    requires Fits(host, p, q)
    ensures CheckPackage(host, p, q).Ok? && q.source == p.source && RequestKeys(p.resources) == LockedKeys(q.resources)
  {
    hide TreeHash, Accepts, ManifestVersion, WorkspaceRoot;
  }

  lemma PackagesSnoc(lock: seq<LockedPackage>, ps: seq<PackageRequest>, packages: seq<ResolvedPackage>,
                     q: LockedPackage, root: string)
    requires ps != [] && ReportsPackages(lock, ps[..|ps| - 1], packages)
    requires FindLocked(lock, ps[|ps| - 1].id) == Some(q) && q.source == ps[|ps| - 1].source
    ensures ReportsPackages(lock, ps,
        packages + [ResolvedPackage(q.id, SourceKind(q.source), q.source.package, q.resolved, root, q.installed)])
  {
    hide FindLocked;
    var n := |ps| - 1;
    assert forall i :: 0 <= i < n ==> ps[..n][i] == ps[i];
  }

  lemma StepReports(host: Host, lock: seq<LockedPackage>, p: PackageRequest, q: LockedPackage, c: Checking)
    requires FindLocked(lock, p.id) == Some(q) && LockedValid(host, q) && CheckStep(host, lock, p, c).problems == []
    ensures c.problems == [] && CheckPackage(host, p, q).Ok? && q.id == p.id && q.source == p.source
    ensures RequestKeys(p.resources) == LockedKeys(q.resources)
    ensures var (root, after) := (CheckPackage(host, p, q).value, CheckStep(host, lock, p, c));
      && after.packages == c.packages +
          [ResolvedPackage(q.id, SourceKind(q.source), q.source.package, q.resolved, root, q.installed)]
      && after.resources == c.resources + Granted(host, q.id, root, q.resources)
  {
    hide *;
    CheckingStepIff(host, lock, p, q, c);
    FittingKeys(host, p, q);
  }

  lemma {:induction false} ChecksReport(host: Host, lock: seq<LockedPackage>, ps: seq<PackageRequest>)
    requires CheckAll(host, lock, ps).problems == []
    requires (forall p :: p in ps ==> LocksId(lock, p.id)) && forall q :: q in lock ==> LockedValid(host, q)
    ensures ReportsPackages(lock, ps, CheckAll(host, lock, ps).packages)
    ensures ReportedExports(CheckAll(host, lock, ps).resources) == RequestedExports(ps)
  {
    if ps != [] {
      var n := |ps| - 1;
      var c := CheckAll(host, lock, ps[..n]);
      assert CheckAll(host, lock, ps) == CheckStep(host, lock, ps[n], c);
      hide *;
      assert ps[n] in ps && forall x :: x in ps[..n] ==> x in ps;
      var q := FindLocked(lock, ps[n].id).value;
      StepReports(host, lock, ps[n], q, c);
      var root := CheckPackage(host, ps[n], q).value;
      ChecksReport(host, lock, ps[..n]);
      PackagesSnoc(lock, ps, c.packages, q, root);
      ExportsSnoc(ps, root, q, host, c.resources);
    }
  }

  /** A report that is ok holds exactly the requested packages and exports; one that is not holds none. */
  lemma ReportsHoldTheContract(host: Host, b: Bundle, lock: LockDocument)
    ensures var report := Inspect(host, Some(b), Some(lock));
      if report.ok then
        ReportsPackages(lock.packages, Normalize(b).packages, report.packages)
        && ReportedExports(report.resources) == RequestedExports(Normalize(b).packages)
      else report.packages == [] && report.resources == []
  {
    OkIffPasses(host, b, lock);
    NotOkIsEmpty(host, Some(b), Some(lock));
    hide Inspect, Normalize, BundleValid, LockedValid, CheckAll, ReportsPackages, ReportedExports, RequestedExports;
    if Passes(host, b, lock) { ChecksReport(host, lock.packages, Normalize(b).packages); }
  }

  lemma NotOkIsEmpty(host: Host, parsed: Option<Bundle>, lock: Option<LockDocument>)
    ensures var report := Inspect(host, parsed, lock);
      (report.ok <==> report.problems == []) && (!report.ok ==> report.packages == [] && report.resources == [])
  {
    hide BundleProblems, DocumentProblems, Normalize, CheckAll, Lacking, Undeclared, AmbientProblems;
  }

  // ---- Order of the contract ---------------------------------------------------------------------------------

  /** The same contract with packages in another order. */
  ghost predicate PackagesReordered(b: Bundle, other: Bundle) {
    other == b.(packages := other.packages) && multiset(b.packages) == multiset(other.packages)
  }

  /** The same contract with each package's exports in another order. */
  ghost predicate ExportsReordered(b: Bundle, other: Bundle) {
    other == b.(packages := other.packages) && |other.packages| == |b.packages|
    && forall i :: 0 <= i < |b.packages| ==>
      other.packages[i] == b.packages[i].(resources := other.packages[i].resources)
      && multiset(b.packages[i].resources) == multiset(other.packages[i].resources)
  }

  lemma SameMultisetSameElements<T>(xs: seq<T>, ys: seq<T>)
    requires multiset(xs) == multiset(ys)
    ensures forall x :: x in xs <==> x in ys
  {
    forall x ensures x in xs <==> x in ys {
      assert x in xs <==> x in multiset(xs);
      assert x in ys <==> x in multiset(ys);
    }
  }

  lemma ReorderedPackagesNormalizeAlike(host: Host, b: Bundle, other: Bundle)
    requires BundleValid(host, b) && PackagesReordered(b, other)
    ensures BundleValid(host, other) && Normalize(other) == Normalize(b)
  {
    hide RequestValid;
    SameMultisetSameElements(b.packages, other.packages);
    DistinctKeysArePermutable(b.packages, other.packages, ById());
    SortByForgetsOrder(b.packages, other.packages, ById());
    hide SortBy, DistinctBy;
  }

  lemma ReorderedExportsNormalizeAlike(host: Host, p: PackageRequest, q: PackageRequest)
    requires RequestValid(host, p) && q == p.(resources := q.resources)
    requires multiset(p.resources) == multiset(q.resources)
    ensures RequestValid(host, q) && NormalizeRequest(q) == NormalizeRequest(p)
  {
    hide SafePath, PortableId, PackageIdentity, ExactRequirement;
    SameMultisetSameElements(p.resources, q.resources);
    DistinctKeysArePermutable(p.resources, q.resources, ByKindAndPath());
    SortByForgetsOrder(p.resources, q.resources, ByKindAndPath());
    hide SortBy, DistinctBy;
  }

  lemma NormalizedElements(ps: seq<PackageRequest>, x: PackageRequest)
    ensures x in NormalizeAll(SortBy(ps, ById())) <==> exists i :: 0 <= i < |ps| && NormalizeRequest(ps[i]) == x
  {
    hide NormalizeRequest;
    var sorted := SortBy(ps, ById());
    SortedElements(ps, ById());
    hide SortBy;
    if x in NormalizeAll(sorted) {
      var k :| 0 <= k < |sorted| && NormalizeAll(sorted)[k] == x;
      assert sorted[k] in ps;
      var i :| 0 <= i < |ps| && ps[i] == sorted[k];
    }
    if exists i :: 0 <= i < |ps| && NormalizeRequest(ps[i]) == x {
      var i :| 0 <= i < |ps| && NormalizeRequest(ps[i]) == x;
      assert ps[i] in sorted;
      var k :| 0 <= k < |sorted| && sorted[k] == ps[i];
      assert NormalizeAll(sorted)[k] == x;
    }
  }

  lemma NormalizedAscends(ps: seq<PackageRequest>)
    requires DistinctBy(ps, ById())
    ensures StrictlyAscendingBy(NormalizeAll(SortBy(ps, ById())), ById())
  {
    var sorted := SortBy(ps, ById());
    SortByIsStrict(ps, ById());
    hide SortBy, DistinctBy, KeyBelow;
    var all := NormalizeAll(sorted);
    forall i, j | 0 <= i < j < |all| ensures KeyBelow(ById()(all[i]), ById()(all[j])) {
      assert KeyBelow(ById()(sorted[i]), ById()(sorted[j]));
      assert ById()(all[i]) == ById()(sorted[i]) && ById()(all[j]) == ById()(sorted[j]);
    }
  }

  lemma ReorderedResourcesNormalizeAlike(host: Host, b: Bundle, other: Bundle)
    requires BundleValid(host, b) && ExportsReordered(b, other)
    ensures BundleValid(host, other) && Normalize(other) == Normalize(b)
  {
    hide RequestValid, DistinctBy, NormalizeRequest, SortBy, AmbientProblems;
    var (ps, qs) := (b.packages, other.packages);
    forall i | 0 <= i < |ps| ensures RequestValid(host, qs[i]) && NormalizeRequest(qs[i]) == NormalizeRequest(ps[i]) {
      assert ps[i] in ps;
      ReorderedExportsNormalizeAlike(host, ps[i], qs[i]);
    }
    SameIdsDistinct(ps, qs, ById(), ById());
    NormalizedAscends(ps);
    NormalizedAscends(qs);
    forall x ensures x in NormalizeAll(SortBy(ps, ById())) <==> x in NormalizeAll(SortBy(qs, ById())) {
      NormalizedElements(ps, x);
      NormalizedElements(qs, x);
    }
    hide NormalizeAll, StrictlyAscendingBy;
    AscendingByIsUnique(NormalizeAll(SortBy(ps, ById())), NormalizeAll(SortBy(qs, ById())), ById());
  }

  /** Reordering the packages of a contract and the exports of its packages gives the same lock. */
  lemma BuildForgetsOrder(host: Host, b: Bundle, middle: Bundle, other: Bundle)
    requires PackagesReordered(b, middle) && ExportsReordered(middle, other) && Build(host, Some(b)).Ok?
    ensures Build(host, Some(other)) == Build(host, Some(b))
  {
    hide BundleValid, Normalize, Build, BuildAll, SortBy, PackagesReordered, ExportsReordered;
    BuildIff(host, b);
    ReorderedPackagesNormalizeAlike(host, b, middle);
    ReorderedResourcesNormalizeAlike(host, middle, other);
    BuildIff(host, other);
  }
}
