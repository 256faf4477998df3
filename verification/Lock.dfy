/** The distribution contract, the lock built from it, and the check of a lock against installed evidence. */
module Lock {
  import opened Wrappers
  import opened Ordering
  import Planning
  import WorkspaceGlob

  datatype Kind = Extension | Skill | PromptTemplate | Theme

  function KindName(kind: Kind): string {
    match kind
    case Extension => "extension"
    case Skill => "skill"
    case PromptTemplate => "prompt_template"
    case Theme => "theme"
  }

  datatype Source = Builtin(package: string) | Workspace(package: string, root: string) | Npm(package: string,
      registry: string)

  datatype ResourceRequest = ResourceRequest(kind: Kind, path: string)

  datatype PackageRequest = PackageRequest(id: string, source: Source, requirement: string,
      resources: seq<ResourceRequest>)

  /** What the contract says about inheriting ambient resources: nothing, a flag, a list of names, or something else. */
  datatype Ambient = Absent | Flag(on: bool) | Names(items: seq<Option<string>>) | Malformed

  datatype Bundle = Bundle(version: string, ambient: Ambient, packages: seq<PackageRequest>)

  datatype LockedResource = LockedResource(kind: Kind, path: string, integrity: string)

  datatype LockedPackage = LockedPackage(
    id: string, source: Source, resolved: string, artifact: string, installed: string, resources: seq<LockedResource>)

  /** The contract digest is modelled by the normalized contract it covers. */
  datatype LockDocument = LockDocument(version: string, contract: Bundle, packages: seq<LockedPackage>)

  datatype Code =
    | BundleParseError | VersionUnsupported | PackageInvalid | DuplicateId | SourceUnsupported | PackageMissing
    | LockParseError | LockDrift | IntegrityMismatch | FieldInvalid

  datatype Problem = Problem(code: Code, about: string)

  datatype Verdict<+T> = Ok(value: T) | Err(problems: seq<Problem>)

  const BUNDLE_KIND := "nopal.bundle/v2"
  const LOCK_KIND := "nopal.lock/v1"

  /** The machine as functions: confined directories, manifests (name and version), tree hashes,
      canonical paths, the npm store, and the library checks of registries and archive digests. */
  datatype Host = Host(
    builtinVersion: string,
    builtinRoot: string,
    workspace: string -> Option<string>,
    manifest: string -> Option<(string, string)>,
    hashTree: string -> Option<string>,
    hashBuiltin: (string, seq<ResourceRequest>) -> Option<string>,
    below: (string, string) -> string,
    canonical: string -> Option<string>,
    store: (string, string, string) -> Option<string>,
    safeRegistry: string -> bool,
    archiveDigest: string -> bool)

  // ---- Words -------------------------------------------------------------------------------------

  predicate Digit(c: char) { '0' <= c <= '9' }

  predicate Alnum(c: char) { Digit(c) || 'a' <= c <= 'z' || 'A' <= c <= 'Z' }

  predicate PortableId(id: string) { forall c :: c in id ==> Alnum(c) || c == '.' || c == '_' || c == '-' }

  predicate SafePath(path: string) {
    && !Planning.Blank(path)
    && (path != "." ==>
          && '\\' !in path && ':' !in path && '\0' !in path
          && forall s :: s in WorkspaceGlob.Components(path) ==> s != "" && s != "." && s != "..")
  }

  /** What stands before and after the first occurrence of a character. */
  function SplitOnce(s: string, c: char): Option<(string, string)> {
    if s == "" then None
    else if s[0] == c then Some(("", s[1..]))
    else match SplitOnce(s[1..], c) case None => None case Some((a, b)) => Some(([s[0]] + a, b))
  }

  function SplitAll(s: string, c: char): (r: seq<string>)
    ensures r != []
  {
    if s == "" then [""]
    else
      var rest := SplitAll(s[1..], c);
      if s[0] == c then [""] + rest else [[s[0]] + rest[0]] + rest[1..]
  }

  predicate AllDigits(s: string) { forall c :: c in s ==> Digit(c) }

  predicate Identifiers(s: string, prerelease: bool) {
    s != "" && forall part :: part in SplitAll(s, '.') ==>
      && part != "" && (forall c :: c in part ==> Alnum(c) || c == '-')
      && (prerelease ==> !AllDigits(part) || part == "0" || part[0] != '0')
  }

  predicate ExactVersion(version: string) {
    var (plain, build) := match SplitOnce(version, '+') case None => (version, None) case Some((v, b)) => (v, Some(b));
    var (core, pre) := match SplitOnce(plain, '-') case None => (plain, None) case Some((v, p)) => (v, Some(p));
    var parts := SplitAll(core, '.');
    && (build.Some? ==> Identifiers(build.value, false))
    && (pre.Some? ==> Identifiers(pre.value, true))
    && |parts| == 3
    && forall part :: part in parts ==> part != "" && AllDigits(part) && (part == "0" || part[0] != '0')
  }

  predicate Control(c: char) { c as int < 0x20 || 0x7F <= c as int <= 0x9F }

  /** A requirement names one exact version, with or without a leading `=`. */
  function ExactRequirement(requirement: string): Option<string> {
    var version := if requirement != "" && requirement[0] == '=' then requirement[1..] else requirement;
    if requirement != "" && (Planning.IsSpace(requirement[0]) ||
        Planning.IsSpace(requirement[|requirement| - 1])) then None
    else if |requirement| > 256 || (exists c :: c in requirement && Control(c)) || !ExactVersion(version) then None
    else Some(version)
  }

  predicate Accepts(requirement: string, version: string) { ExactRequirement(requirement) == Some(version) }

  predicate NameSegment(s: string) {
    s != "" && Alnum(s[0]) && forall c :: c in s ==> 'a' <= c <= 'z' || Digit(c) || c == '-' || c == '_' || c == '.'
  }

  predicate PackageIdentity(name: string) {
    && name != "" && |name| <= 214
    && if name[0] == '@' then
         match SplitOnce(name[1..], '/')
         case None => false
         case Some((scope, rest)) => '/' !in rest && NameSegment(scope) && NameSegment(rest)
       else '/' !in name && '@' !in name && NameSegment(name)
  }

  predicate Hex(c: char) { Digit(c) || 'a' <= c <= 'f' || 'A' <= c <= 'F' }

  predicate Sha256(integrity: string) {
    |integrity| == 71 && integrity[..7] == "sha256:" && forall c :: c in integrity[7..] ==> Hex(c)
  }

  // ---- Order -------------------------------------------------------------------------------------

  function ById(): PackageRequest -> Key { (p: PackageRequest) => (p.id, "") }

  function LockedById(): LockedPackage -> Key { (p: LockedPackage) => (p.id, "") }

  function ByKindAndPath(): ResourceRequest -> Key { (r: ResourceRequest) => (KindName(r.kind), r.path) }

  function LockedByKindAndPath(): LockedResource -> Key { (r: LockedResource) => (KindName(r.kind), r.path) }

  function NormalizeRequest(p: PackageRequest): PackageRequest { p.(resources := SortBy(p.resources, ByKindAndPath())) }

  function NormalizeAll(ps: seq<PackageRequest>): (r: seq<PackageRequest>)
    ensures |r| == |ps| && forall i :: 0 <= i < |ps| ==> r[i] == NormalizeRequest(ps[i])
  {
    seq(|ps|, i requires 0 <= i < |ps| => NormalizeRequest(ps[i]))
  }

  function Normalize(b: Bundle): Bundle { b.(packages := NormalizeAll(SortBy(b.packages, ById()))) }

  method NormalizeBundle(b: Bundle) returns (r: Bundle)
    ensures r == Normalize(b)
  {
    hide SortBy;
    var packages := SortBy(b.packages, ById());
    var normalized := [];
    for i := 0 to |packages|
      invariant normalized == NormalizeAll(packages)[..i]
    {
      normalized := normalized + [packages[i].(resources := SortBy(packages[i].resources, ByKindAndPath()))];
    }
    r := b.(packages := normalized);
  }

  // ---- Validation -----------------------------------------------------------------------------------

  function ResourceProblems(p: PackageRequest, rs: seq<ResourceRequest>): seq<Problem> {
    if rs == [] then []
    else
      var r := rs[|rs| - 1];
      ResourceProblems(p, rs[..|rs| - 1])
      + (if r in rs[..|rs| - 1] then [Problem(PackageInvalid, p.id)] else [])
      + (if r.kind.Extension? && p.source != Builtin("nopal") then [Problem(SourceUnsupported, p.id)] else [])
      + (if !SafePath(r.path) then [Problem(PackageInvalid, p.id)] else [])
  }

  function RequestProblems(host: Host, p: PackageRequest): seq<Problem> {
    (if Planning.Blank(p.id) || |p.id| > 128 || !PortableId(p.id) then [Problem(PackageInvalid, p.id)] else [])
    + (if !PackageIdentity(p.source.package) then [Problem(PackageInvalid, p.id)] else [])
    + (if ExactRequirement(p.requirement).None? then [Problem(PackageInvalid, p.id)] else [])
    + (if p.source.Workspace? && !SafePath(p.source.root) then [Problem(PackageInvalid, p.id)] else [])
    + (if p.source.Npm? && !host.safeRegistry(p.source.registry) then [Problem(PackageInvalid, p.id)] else [])
    + ResourceProblems(p, p.resources)
  }

  predicate NamesId(ps: seq<PackageRequest>, id: string) { exists p :: p in ps && p.id == id }

  function RequestsProblems(host: Host, ps: seq<PackageRequest>): seq<Problem> {
    if ps == [] then []
    else
      var p := ps[|ps| - 1];
      RequestsProblems(host, ps[..|ps| - 1])
      + (if NamesId(ps[..|ps| - 1], p.id) then [Problem(DuplicateId, p.id)] else [])
      + RequestProblems(host, p)
  }

  /** Unknown names only warn; entries that are not strings are errors. */
  function AmbientProblems(ambient: Ambient): seq<Problem> {
    match ambient
    case Malformed => [Problem(FieldInvalid, "inherit_ambient")]
    case Names(items) => if None in items then [Problem(FieldInvalid, "inherit_ambient")] else []
    case _ => []
  }

  function BundleProblems(host: Host, b: Bundle): seq<Problem> {
    (if b.version != BUNDLE_KIND then [Problem(VersionUnsupported, b.version)] else [])
    + RequestsProblems(host, b.packages) + AmbientProblems(b.ambient)
  }

  method ValidateBundle(host: Host, b: Bundle) returns (problems: seq<Problem>)
    ensures problems == BundleProblems(host, b)
  {
    hide RequestProblems;
    problems := if b.version != BUNDLE_KIND then [Problem(VersionUnsupported, b.version)] else [];
    var ids: set<string> := {};
    var found := [];
    for i := 0 to |b.packages|
      invariant ids == set k | 0 <= k < i :: b.packages[k].id
      invariant found == RequestsProblems(host, b.packages[..i])
    {
      var p := b.packages[i];
      assert b.packages[..i + 1][..i] == b.packages[..i];
      assert p.id in ids <==> NamesId(b.packages[..i], p.id);
      if p.id in ids { found := found + [Problem(DuplicateId, p.id)]; }
      ids := ids + {p.id};
      found := found + RequestProblems(host, p);
    }
    assert b.packages[..|b.packages|] == b.packages;
    problems := problems + found + AmbientProblems(b.ambient);
  }

  function LockedResourceProblems(p: LockedPackage, rs: seq<LockedResource>): seq<Problem> {
    if rs == [] then []
    else
      var r := rs[|rs| - 1];
      LockedResourceProblems(p, rs[..|rs| - 1])
      + (if RepeatsResource(rs[..|rs| - 1], r) then [Problem(DuplicateId, p.id)] else [])
      + (if !SafePath(r.path) || !Sha256(r.integrity) then [Problem(LockParseError, p.id)] else [])
  }

  predicate RepeatsResource(rs: seq<LockedResource>, r: LockedResource) {
    exists q :: q in rs && q.kind == r.kind && q.path == r.path
  }

  function LockedProblems(host: Host, p: LockedPackage): seq<Problem> {
    (if !PortableId(p.id) || p.id == "" then [Problem(LockParseError, p.id)] else [])
    + (if !ExactVersion(p.resolved) then [Problem(LockParseError, p.id)] else [])
    + (if !Sha256(p.installed) then [Problem(LockParseError, p.id)] else [])
    + (if p.source.Npm? then if host.archiveDigest(p.artifact) then [] else [Problem(LockParseError, p.id)]
       else if p.artifact != p.installed then [Problem(LockDrift, p.id)] else [])
    + LockedResourceProblems(p, p.resources)
  }

  predicate LocksId(ps: seq<LockedPackage>, id: string) { exists p :: p in ps && p.id == id }

  function LockProblems(host: Host, ps: seq<LockedPackage>): seq<Problem> {
    if ps == [] then []
    else
      var p := ps[|ps| - 1];
      LockProblems(host, ps[..|ps| - 1])
      + (if LocksId(ps[..|ps| - 1], p.id) then [Problem(DuplicateId, p.id)] else [])
      + LockedProblems(host, p)
  }

  function DocumentProblems(host: Host, lock: LockDocument): seq<Problem> {
    LockProblems(host, lock.packages) + (if lock.version != LOCK_KIND then [Problem(VersionUnsupported, lock.version)]
                                         else [])
  }

  method ValidateLock(host: Host, lock: LockDocument) returns (problems: seq<Problem>)
    ensures problems == DocumentProblems(host, lock)
  {
    hide LockedProblems;
    problems := [];
    var ids: set<string> := {};
    for i := 0 to |lock.packages|
      invariant ids == set k | 0 <= k < i :: lock.packages[k].id
      invariant problems == LockProblems(host, lock.packages[..i])
    {
      var p := lock.packages[i];
      assert lock.packages[..i + 1][..i] == lock.packages[..i];
      assert p.id in ids <==> LocksId(lock.packages[..i], p.id);
      if p.id in ids { problems := problems + [Problem(DuplicateId, p.id)]; }
      ids := ids + {p.id};
      problems := problems + LockedProblems(host, p);
    }
    assert lock.packages[..|lock.packages|] == lock.packages;
    if lock.version != LOCK_KIND { problems := problems + [Problem(VersionUnsupported, lock.version)]; }
  }

  // ---- Resource owners --------------------------------------------------------------------------------

  datatype Owner = Owner(id: string, kind: Kind, path: string)

  function CanonicalOf(host: Host, root: string, path: string): Option<string> {
    if SafePath(path) then host.canonical(host.below(root, path)) else None
  }

  /** The first package to export a canonical path owns it. */
  method RecordResourceOwner(owners: map<string, Owner>, canonical: string, owner: Owner)
    returns (isNew: bool, after: map<string, Owner>)
    ensures isNew <==> canonical !in owners
    ensures after == if isNew then owners[canonical := owner] else owners
  {
    isNew := canonical !in owners;
    after := if isNew then owners[canonical := owner] else owners;
  }

  /** Owners so far, the resources that got one, and the problems. */
  datatype Claims = Claims(owners: map<string, Owner>, granted: seq<LockedResource>, problems: seq<Problem>)

  function Claim(host: Host, root: string, id: string, r: LockedResource, c: Claims): Claims {
    var path := CanonicalOf(host, root, r.path);
    if path.None? || path.value in c.owners then c.(problems := c.problems + [Problem(PackageInvalid, id)])
    else c.(owners := c.owners[path.value := Owner(id, r.kind, r.path)], granted := c.granted + [r])
  }

  function ClaimAll(host: Host, root: string, id: string, rs: seq<LockedResource>, c: Claims): Claims {
    if rs == [] then c else Claim(host, root, id, rs[|rs| - 1], ClaimAll(host, root, id, rs[..|rs| - 1], c))
  }

  // ---- Building -------------------------------------------------------------------------------------------

  function ManifestVersion(host: Host, root: string, name: string): Option<string> {
    match host.manifest(root)
    case Some((n, v)) => if n == name && ExactVersion(v) then Some(v) else None
    case None => None
  }

  function WorkspaceRoot(host: Host, root: string): Option<string> {
    if SafePath(root) then host.workspace(root) else None
  }

  /** Where a local package is and which version it has. */
  function Resolve(host: Host, p: PackageRequest): Verdict<(string, string)> {
    match p.source
    case Builtin(package) =>
      if package != "nopal" then Err([Problem(SourceUnsupported, p.id)])
      else if !Accepts(p.requirement, host.builtinVersion) then Err([Problem(PackageInvalid, p.id)])
      else Ok((host.builtinRoot, host.builtinVersion))
    case Workspace(package, root) =>
      var at := WorkspaceRoot(host, root);
      if at.None? then Err([Problem(PackageInvalid, p.id)])
      else
        var version := ManifestVersion(host, at.value, package);
        if version.None? then Err([Problem(PackageMissing, p.id)])
        else if !Accepts(p.requirement, version.value) then Err([Problem(PackageInvalid, p.id)])
        else Ok((at.value, version.value))
    case Npm(_, _) => Err([Problem(SourceUnsupported, p.id)])
  }

  function TreeHash(host: Host, p: PackageRequest, root: string): Option<string> {
    if p.source.Builtin? then host.hashBuiltin(root, p.resources) else host.hashTree(root)
  }

  function ResourceHash(host: Host, root: string, path: string): Option<string> {
    if SafePath(path) then host.hashTree(host.below(root, path)) else None
  }

  function LockResources(host: Host, id: string, root: string,
                         rs: seq<ResourceRequest>): (seq<LockedResource>, seq<Problem>) {
    if rs == [] then ([], [])
    else
      var (locked, problems) := LockResources(host, id, root, rs[..|rs| - 1]);
      var r := rs[|rs| - 1];
      match ResourceHash(host, root, r.path)
      case None => (locked, problems + [Problem(if SafePath(r.path) then PackageMissing else PackageInvalid, id)])
      case Some(integrity) => (locked + [LockedResource(r.kind, r.path, integrity)], problems)
  }

  function LockLocal(host: Host, p: PackageRequest, root: string, resolved: string): Verdict<LockedPackage> {
    match TreeHash(host, p, root)
    case None => Err([Problem(PackageMissing, p.id)])
    case Some(tree) =>
      var (resources, problems) := LockResources(host, p.id, root, p.resources);
      if problems != [] then Err(problems)
      else Ok(LockedPackage(p.id, p.source, resolved, tree, tree, SortBy(resources, LockedByKindAndPath())))
  }

  datatype Building = Building(locked: seq<LockedPackage>, owners: map<string, Owner>, problems: seq<Problem>)

  function BuildStep(host: Host, p: PackageRequest, b: Building): Building {
    match Resolve(host, p)
    case Err(problems) => b.(problems := b.problems + problems)
    case Ok((root, resolved)) =>
      match LockLocal(host, p, root, resolved)
      case Err(problems) => b.(problems := b.problems + problems)
      case Ok(package) =>
        var c := ClaimAll(host, root, p.id, package.resources, Claims(b.owners, [], []));
        Building(b.locked + [package], c.owners, b.problems + c.problems)
  }

  function BuildAll(host: Host, ps: seq<PackageRequest>): Building {
    if ps == [] then Building([], map[], []) else BuildStep(host, ps[|ps| - 1], BuildAll(host, ps[..|ps| - 1]))
  }

  /** The lock of a parsed contract, from sources already on the machine. */
  function Build(host: Host, parsed: Option<Bundle>): Verdict<LockDocument> {
    if parsed.None? then Err([Problem(BundleParseError, "")])
    else
      var b := Normalize(parsed.value);
      var built := BuildAll(host, b.packages);
      var problems := BundleProblems(host, parsed.value) + built.problems;
      if problems != [] then Err(problems) else Ok(LockDocument(LOCK_KIND, b, SortBy(built.locked, LockedById())))
  }

  method BuildLock(host: Host, parsed: Option<Bundle>) returns (r: Verdict<LockDocument>)
    ensures r == Build(host, parsed)
  {
    hide BundleProblems, Normalize, BuildStep;
    if parsed.None? { return Err([Problem(BundleParseError, "")]); }
    var problems := ValidateBundle(host, parsed.value);
    var bundle := NormalizeBundle(parsed.value);
    var building := Building([], map[], []);
    for i := 0 to |bundle.packages|
      invariant building == BuildAll(host, bundle.packages[..i])
    {
      assert bundle.packages[..i + 1][..i] == bundle.packages[..i];
      building := LockRequest(host, bundle.packages[i], building);
    }
    assert bundle.packages[..|bundle.packages|] == bundle.packages;
    problems := problems + building.problems;
    if problems != [] { return Err(problems); }
    r := Ok(LockDocument(LOCK_KIND, bundle, SortBy(building.locked, LockedById())));
  }

  method LockRequest(host: Host, p: PackageRequest, b: Building) returns (after: Building)
    ensures after == BuildStep(host, p, b)
  {
    hide Resolve, LockLocal, Claim;
    var resolution := Resolve(host, p);
    if resolution.Err? { return b.(problems := b.problems + resolution.problems); }
    var (root, resolved) := resolution.value;
    var locked := LockLocalPackage(host, p, root, resolved);
    if locked.Err? { return b.(problems := b.problems + locked.problems); }
    var resources := locked.value.resources;
    var owners, problems, granted := b.owners, [], [];
    for i := 0 to |resources|
      invariant Claims(owners, granted, problems) ==
          ClaimAll(host, root, p.id, resources[..i], Claims(b.owners, [], []))
    {
      assert resources[..i + 1][..i] == resources[..i];
      var c := ClaimResource(host, root, p.id, resources[i], Claims(owners, granted, problems));
      owners, granted, problems := c.owners, c.granted, c.problems;
    }
    assert resources[..|resources|] == resources;
    after := Building(b.locked + [locked.value], owners, b.problems + problems);
  }

  method ClaimResource(host: Host, root: string, id: string, r: LockedResource, c: Claims) returns (after: Claims)
    ensures after == Claim(host, root, id, r, c)
  {
    var path := CanonicalOf(host, root, r.path);
    if path.None? { return c.(problems := c.problems + [Problem(PackageInvalid, id)]); }
    var isNew, owners := RecordResourceOwner(c.owners, path.value, Owner(id, r.kind, r.path));
    if isNew {
      after := c.(owners := owners, granted := c.granted + [r]);
    } else {
      after := c.(problems := c.problems + [Problem(PackageInvalid, id)]);
    }
  }

  method LockLocalPackage(host: Host, p: PackageRequest, root: string, resolved: string)
    returns (r: Verdict<LockedPackage>)
    ensures r == LockLocal(host, p, root, resolved)
  {
    hide SafePath;
    var tree := TreeHash(host, p, root);
    if tree.None? { return Err([Problem(PackageMissing, p.id)]); }
    var resources, problems := [], [];
    for i := 0 to |p.resources|
      invariant (resources, problems) == LockResources(host, p.id, root, p.resources[..i])
    {
      assert p.resources[..i + 1][..i] == p.resources[..i];
      var resource := p.resources[i];
      if !SafePath(resource.path) {
        problems := problems + [Problem(PackageInvalid, p.id)];
        continue;
      }
      match host.hashTree(host.below(root, resource.path)) {
        case Some(integrity) => resources := resources + [LockedResource(resource.kind, resource.path, integrity)];
        case None => problems := problems + [Problem(PackageMissing, p.id)];
      }
    }
    assert p.resources[..|p.resources|] == p.resources;
    if problems != [] { return Err(problems); }
    r := Ok(LockedPackage(p.id, p.source, resolved, tree.value, tree.value, SortBy(resources, LockedByKindAndPath())));
  }

  // ---- Checking --------------------------------------------------------------------------------------------

  datatype ResolvedPackage = ResolvedPackage(id: string, kind: string, package: string, resolved: string, root: string,
      integrity: string)

  datatype ResolvedResource = ResolvedResource(packageId: string, kind: Kind, path: string, resolvedPath: string,
      integrity: string)

  datatype Report = Report(ok: bool, packages: seq<ResolvedPackage>, resources: seq<ResolvedResource>,
      problems: seq<Problem>)

  function SourceKind(s: Source): string {
    match s case Builtin(_) => "builtin" case Workspace(_, _) => "workspace" case Npm(_, _) => "npm"
  }

  function FindLocked(ps: seq<LockedPackage>, id: string): (r: Option<LockedPackage>)
    ensures r.Some? ==> r.value in ps && r.value.id == id
    ensures r.None? <==> !LocksId(ps, id)
  {
    if ps == [] then None
    else if ps[0].id == id then Some(ps[0])
    else
      assert ps == [ps[0]] + ps[1..];
      FindLocked(ps[1..], id)
  }

  /** Requested packages the lock lacks, and locked packages nobody requested. */
  function Lacking(ps: seq<PackageRequest>, locked: seq<LockedPackage>): seq<Problem> {
    if ps == [] then []
    else
      Lacking(ps[..|ps| - 1], locked)
      + (if LocksId(locked, ps[|ps| - 1].id) then [] else [Problem(LockDrift, ps[|ps| - 1].id)])
  }

  function Undeclared(locked: seq<LockedPackage>, ps: seq<PackageRequest>): seq<Problem> {
    if locked == [] then []
    else
      Undeclared(locked[..|locked| - 1], ps)
      + (if NamesId(ps, locked[|locked| - 1].id) then [] else [Problem(LockDrift, locked[|locked| - 1].id)])
  }

  function InstalledRoot(host: Host, p: PackageRequest, locked: LockedPackage): Verdict<string> {
    match p.source
    case Builtin(package) =>
      if package != "nopal" then Err([Problem(SourceUnsupported, p.id)])
      else if locked.resolved != host.builtinVersion then Err([Problem(PackageMissing, p.id)])
      else Ok(host.builtinRoot)
    case Workspace(_, root) =>
      (match WorkspaceRoot(host, root) case None => Err([Problem(PackageInvalid, p.id)]) case Some(at) => Ok(at))
    case Npm(package, _) =>
      match host.store(package, locked.resolved, locked.artifact)
      case None => Err([Problem(PackageInvalid, p.id)])
      case Some(at) => Ok(at)
  }

  function RequestKeys(rs: seq<ResourceRequest>): set<(Kind, string)> { set r | r in rs :: (r.kind, r.path) }

  function LockedKeys(rs: seq<LockedResource>): set<(Kind, string)> { set r | r in rs :: (r.kind, r.path) }

  /** A resource is granted when its tree is what the lock says and nobody owns its canonical path. */
  function CheckResource(host: Host, root: string, id: string, r: LockedResource, c: Claims): Claims {
    var found := ResourceHash(host, root, r.path);
    if found.None? then c.(problems := c.problems +
        [Problem(if SafePath(r.path) then PackageMissing else PackageInvalid, id)])
    else if found.value != r.integrity then c.(problems := c.problems + [Problem(IntegrityMismatch, id)])
    else Claim(host, root, id, r, c)
  }

  function CheckResources(host: Host, root: string, id: string, rs: seq<LockedResource>, c: Claims): Claims {
    if rs == [] then c
    else CheckResource(host, root, id, rs[|rs| - 1], CheckResources(host, root, id, rs[..|rs| - 1], c))
  }

  function Granted(host: Host, id: string, root: string, rs: seq<LockedResource>): (g: seq<ResolvedResource>)
    ensures |g| == |rs| && forall i :: 0 <= i < |rs| ==>
      g[i] == ResolvedResource(id, rs[i].kind, rs[i].path, host.below(root, rs[i].path), rs[i].integrity)
  {
    seq(|rs|, i requires 0 <= i < |rs| => ResolvedResource(id, rs[i].kind, rs[i].path, host.below(root, rs[i].path),
        rs[i].integrity))
  }

  datatype Checking = Checking(packages: seq<ResolvedPackage>, resources: seq<ResolvedResource>, owners: map<string,
      Owner>, problems: seq<Problem>)

  /** Everything that must hold of a locked package before its resources are looked at; its root if it does. */
  function CheckPackage(host: Host, p: PackageRequest, locked: LockedPackage): Verdict<string> {
    if locked.source != p.source then Err([Problem(LockDrift, p.id)])
    else if !Accepts(p.requirement, locked.resolved) then Err([Problem(LockDrift, p.id)])
    else
      var at := InstalledRoot(host, p, locked);
      if at.Err? then at
      else
        var version := if p.source.Builtin? then Some(locked.resolved)
                       else ManifestVersion(host, at.value, p.source.package);
        if version.None? then Err([Problem(PackageMissing, p.id)])
        else if version.value != locked.resolved then Err([Problem(IntegrityMismatch, p.id)])
        else
          var tree := TreeHash(host, p, at.value);
          if tree.None? then Err([Problem(PackageMissing, p.id)])
          else if tree.value != locked.installed then Err([Problem(IntegrityMismatch, p.id)])
          else if RequestKeys(p.resources) != LockedKeys(locked.resources) then Err([Problem(LockDrift, p.id)])
          else at
  }

  function CheckStep(host: Host, lock: seq<LockedPackage>, p: PackageRequest, c: Checking): Checking {
    match FindLocked(lock, p.id)
    case None => c
    case Some(locked) =>
      match CheckPackage(host, p, locked)
      case Err(problems) => c.(problems := c.problems + problems)
      case Ok(root) =>
        var claims := CheckResources(host, root, p.id, locked.resources, Claims(c.owners, [], []));
        Checking(
          c.packages + [ResolvedPackage(locked.id, SourceKind(locked.source), locked.source.package, locked.resolved,
              root, locked.installed)],
          c.resources + Granted(host, locked.id, root, claims.granted),
          claims.owners,
          c.problems + claims.problems)
  }

  function CheckAll(host: Host, lock: seq<LockedPackage>, ps: seq<PackageRequest>): Checking {
    if ps == [] then Checking([], [], map[], [])
    else CheckStep(host, lock, ps[|ps| - 1], CheckAll(host, lock, ps[..|ps| - 1]))
  }

  /** A report that is not ok carries nothing. */
  function Reported(packages: seq<ResolvedPackage>, resources: seq<ResolvedResource>, problems: seq<Problem>): Report {
    if problems == [] then Report(true, packages, resources, []) else Report(false, [], [], problems)
  }

  function Inspect(host: Host, parsed: Option<Bundle>, lock: Option<LockDocument>): Report {
    var found := (if parsed.None? then [Problem(BundleParseError, "")] else BundleProblems(host, parsed.value))
      + (if lock.None? then [Problem(LockParseError, "")] else DocumentProblems(host, lock.value));
    if parsed.None? || lock.None? || DocumentProblems(host, lock.value) != [] then Reported([], [], found)
    else
      var b := Normalize(parsed.value);
      var drift := (if lock.value.contract != b then [Problem(LockDrift, "")] else [])
        + Lacking(b.packages, lock.value.packages) + Undeclared(lock.value.packages, b.packages);
      var c := CheckAll(host, lock.value.packages, b.packages);
      Reported(c.packages, c.resources, found + drift + c.problems + AmbientProblems(b.ambient))
  }

  method InspectTexts(host: Host, parsed: Option<Bundle>, lock: Option<LockDocument>) returns (report: Report)
    ensures report == Inspect(host, parsed, lock)
  {
    hide BundleProblems, DocumentProblems, Normalize, CheckStep;
    var problems := [Problem(BundleParseError, "")];
    if parsed.Some? { problems := ValidateBundle(host, parsed.value); }
    var lockProblems := [Problem(LockParseError, "")];
    if lock.Some? { lockProblems := ValidateLock(host, lock.value); }
    problems := problems + lockProblems;
    if parsed.None? || lock.None? || lockProblems != [] { return Report(false, [], [], problems); }
    var bundle := NormalizeBundle(parsed.value);
    var drift := CompareIds(bundle.packages, lock.value.packages);
    problems := problems + ((if lock.value.contract != bundle then [Problem(LockDrift, "")]
                             else []) + drift.0 + drift.1);
    var checking := Checking([], [], map[], []);
    for i := 0 to |bundle.packages|
      invariant checking == CheckAll(host, lock.value.packages, bundle.packages[..i])
    {
      assert bundle.packages[..i + 1][..i] == bundle.packages[..i];
      checking := CheckRequest(host, lock.value.packages, bundle.packages[i], checking);
    }
    assert bundle.packages[..|bundle.packages|] == bundle.packages;
    problems := problems + checking.problems + AmbientProblems(bundle.ambient);
    var packages, resources := checking.packages, checking.resources;
    if problems != [] { packages, resources := [], []; }
    report := Report(problems == [], packages, resources, problems);
  }

  method CompareIds(ps: seq<PackageRequest>, locked: seq<LockedPackage>) returns (drift: (seq<Problem>, seq<Problem>))
    ensures drift == (Lacking(ps, locked), Undeclared(locked, ps))
  {
    var requested: set<string> := set p | p in ps :: p.id;
    var held: set<string> := set p | p in locked :: p.id;
    var missing := [];
    for i := 0 to |ps|
      invariant missing == Lacking(ps[..i], locked)
    {
      assert ps[..i + 1][..i] == ps[..i];
      assert ps[i].id in held <==> LocksId(locked, ps[i].id);
      if ps[i].id !in held { missing := missing + [Problem(LockDrift, ps[i].id)]; }
    }
    assert ps[..|ps|] == ps;
    var extra := [];
    for i := 0 to |locked|
      invariant extra == Undeclared(locked[..i], ps)
    {
      assert locked[..i + 1][..i] == locked[..i];
      assert locked[i].id in requested <==> NamesId(ps, locked[i].id);
      if locked[i].id !in requested { extra := extra + [Problem(LockDrift, locked[i].id)]; }
    }
    assert locked[..|locked|] == locked;
    drift := (missing, extra);
  }

  method CheckRequest(host: Host, lock: seq<LockedPackage>, p: PackageRequest, c: Checking) returns (after: Checking)
    ensures after == CheckStep(host, lock, p, c)
  {
    hide CheckPackage, CheckResource;
    var locked := FindLocked(lock, p.id);
    if locked.None? { return c; }
    var at := CheckPackage(host, p, locked.value);
    if at.Err? { return c.(problems := c.problems + at.problems); }
    var resources := locked.value.resources;
    var claims := Claims(c.owners, [], []);
    for i := 0 to |resources|
      invariant claims == CheckResources(host, at.value, p.id, resources[..i], Claims(c.owners, [], []))
    {
      assert resources[..i + 1][..i] == resources[..i];
      claims := CheckExport(host, at.value, p.id, resources[i], claims);
    }
    assert resources[..|resources|] == resources;
    var package := ResolvedPackage(locked.value.id, SourceKind(locked.value.source), locked.value.source.package,
                                   locked.value.resolved, at.value, locked.value.installed);
    after := Checking(c.packages + [package], c.resources + Granted(host, locked.value.id, at.value, claims.granted),
                      claims.owners, c.problems + claims.problems);
  }

  method CheckExport(host: Host, root: string, id: string, r: LockedResource, c: Claims) returns (after: Claims)
    ensures after == CheckResource(host, root, id, r, c)
  {
    hide SafePath, Claim;
    if !SafePath(r.path) { return c.(problems := c.problems + [Problem(PackageInvalid, id)]); }
    match host.hashTree(host.below(root, r.path)) {
      case None => after := c.(problems := c.problems + [Problem(PackageMissing, id)]);
      case Some(integrity) =>
        if integrity == r.integrity {
          after := ClaimResource(host, root, id, r, c);
        } else {
          after := c.(problems := c.problems + [Problem(IntegrityMismatch, id)]);
        }
    }
  }
}
