/** The permanent registry of public names that short links and sites share: claiming, reclaiming a
    retired link name, retiring, and resolving, each one transaction over the names, links and sites tables. */
module PublicNames {
  import opened Wrappers

  datatype Kind = LinkName | SiteName

  datatype NameRow = NameRow(owner: string, kind: Kind, resource: string, createdAt: int, retiredAt: Option<int>)

  /** A destination's ID is unique in the whole table. */
  datatype Destination = Destination(id: string, position: nat, text: string, url: string)

  datatype LinkRow = LinkRow(
    owner: string, slug: string, enabled: bool, destinations: seq<Destination>,
    createdAt: int, updatedAt: int, expiresAt: Option<int>, deletedAt: Option<int>)

  datatype SiteRow = SiteRow(owner: string, name: string, enabled: bool, createdAt: int)

  type Names = map<string, NameRow>

  datatype Registry = Registry(names: Names, links: map<string, LinkRow>, sites: map<string, SiteRow>)

  const EMPTY := Registry(map[], map[], map[])

  datatype Reply =
    | Done
    | Forbidden
    | NameTaken
    | NeedsConfirmation
    | OverLimit
    | NotFound
    | Constraint       // the database refuses the statement

  datatype Claim = Claimed | Reclaimed | ConfirmFirst | Unavailable

  // ---- Claiming a name ----

  function ClaimName(
    names: Names, name: string, owner: string, kind: Kind, resource: string, now: int, allowReclaim: bool)
    : (Names, Claim)
  {
    var row := NameRow(owner, kind, resource, now, None);
    if name !in names then (names[name := row], Claimed)
    else
      var existing := names[name];
      if existing.owner != owner || existing.kind != LinkName || existing.retiredAt.None? then (names, Unavailable)
      else if !allowReclaim then (names, ConfirmFirst)
      else (names[name := row.(owner := existing.owner)], Reclaimed)
  }

  function LinkNames(names: Names, owner: string): set<string> {
    set n | n in names && names[n].owner == owner && names[n].kind == LinkName
  }

  // ---- The unique constraints of the schema ----

  predicate ActiveSlug(links: map<string, LinkRow>, id: string, slug: string) {
    id in links && links[id].slug == slug && links[id].deletedAt.None?
  }

  predicate SlugFree(r: Registry, slug: string) {
    forall id :: id in r.links ==> !ActiveSlug(r.links, id, slug)
  }

  predicate SiteNameFree(r: Registry, name: string) {
    forall id :: id in r.sites ==> r.sites[id].name != name
  }

  predicate ResourceFree(names: Names, kind: Kind, resource: string) {
    forall n :: n in names ==> !(names[n].kind == kind && names[n].resource == resource)
  }

  // ---- The transactions as functions ----

  datatype NewDestination = NewDestination(id: string, text: string, url: string)

  datatype NewLink = NewLink(
    owner: string, slug: string, id: string, destinations: seq<NewDestination>, expiresAt: Option<int>,
    allowReclaim: bool, maxLinks: int, ownerActive: bool, now: int)

  datatype NewSite = NewSite(
    owner: string, name: string, id: string, allowReclaim: bool, maxSites: int, ownerActive: bool, now: int)

  datatype Actor = Actor(user: string, includeAll: bool)

  function Refusal(claim: Claim): Reply
    requires claim == ConfirmFirst || claim == Unavailable
  {
    if claim == ConfirmFirst then NeedsConfirmation else NameTaken
  }

  predicate Won(claim: Claim) { claim == Claimed || claim == Reclaimed }

  function LinkOf(v: NewLink, rows: seq<Destination>): LinkRow {
    LinkRow(v.owner, v.slug, true, rows, v.now, v.now, v.expiresAt, None)
  }

  const MAX_POSITION := 24

  function Ids(rows: seq<Destination>): set<string> {
    set i | 0 <= i < |rows| :: rows[i].id
  }

  function TakenIds(links: map<string, LinkRow>): set<string> {
    set l, i | l in links && 0 <= i < |links[l].destinations| :: links[l].destinations[i].id
  }

  predicate Acceptable(v: NewDestination, position: nat, taken: set<string>) {
    position <= MAX_POSITION && |v.text| <= 120 && 1 <= |v.url| <= 4096 && v.id !in taken
  }

  function Inserted(values: seq<NewDestination>, taken: set<string>): Option<seq<Destination>> {
    if values == [] then Some([])
    else
      var n, v := |values| - 1, values[|values| - 1];
      var rows := Inserted(values[..n], taken);
      if rows.Some? && Acceptable(v, n, taken + Ids(rows.value))
      then Some(rows.value + [Destination(v.id, n, v.text, v.url)]) else None
  }

  function CreateLink(r: Registry, v: NewLink): (Registry, Reply) {
    if !v.ownerActive then (r, Forbidden)
    else
      var (names, claim) := ClaimName(r.names, v.slug, v.owner, LinkName, v.id, v.now, v.allowReclaim);
      if !Won(claim) then (r, Refusal(claim))
      else if !ResourceFree(r.names, LinkName, v.id) then (r, Constraint)
      else if claim == Claimed && |LinkNames(names, v.owner)| > v.maxLinks then (r, OverLimit)
      else if v.id in r.links || !SlugFree(r, v.slug) || (v.expiresAt.Some? && v.expiresAt.value <= v.now) then
        (r, Constraint)
      else
        match Inserted(v.destinations, TakenIds(r.links))
        case None => (r, Constraint)
        case Some(rows) => (r.(names := names, links := r.links[v.id := LinkOf(v, rows)]), Done)
  }

  function OwnedSites(r: Registry, owner: string): set<string> {
    set id | id in r.sites && r.sites[id].owner == owner
  }

  function CreateSite(r: Registry, v: NewSite): (Registry, Reply) {
    if !v.ownerActive then (r, Forbidden)
    else if |OwnedSites(r, v.owner)| >= v.maxSites then (r, OverLimit)
    else
      var (names, claim) := ClaimName(r.names, v.name, v.owner, SiteName, v.id, v.now, v.allowReclaim);
      if !Won(claim) then (r, Refusal(claim))
      else if !ResourceFree(r.names, SiteName, v.id) then (r, Constraint)
      else if v.id in r.sites || !SiteNameFree(r, v.name) then (r, Constraint)
      else (r.(names := names, sites := r.sites[v.id := SiteRow(v.owner, v.name, true, v.now)]), Done)
  }

  predicate MayManage(r: Registry, id: string, actor: Actor) {
    id in r.links && r.links[id].deletedAt.None? && (r.links[id].owner == actor.user || actor.includeAll)
  }

  function SetEnabled(r: Registry, id: string, actor: Actor, enabled: bool, now: int): (Registry, Reply) {
    if !MayManage(r, id, actor) then (r, NotFound)
    else if now < r.links[id].createdAt then (r, Constraint)
    else (r.(links := r.links[id := r.links[id].(enabled := enabled, updatedAt := now)]), Done)
  }

  /** The unretired name rows that belong to a link. */
  function LiveNamesOf(names: Names, id: string): set<string> {
    set n | n in names && names[n].kind == LinkName && names[n].resource == id && names[n].retiredAt.None?
  }

  function RetireNames(names: Names, id: string, now: int): Names {
    map n | n in names :: if n in LiveNamesOf(names, id) then names[n].(retiredAt := Some(now)) else names[n]
  }

  function RetireLink(r: Registry, id: string, actor: Actor, now: int): (Registry, Reply) {
    if !MayManage(r, id, actor) then (r, NotFound)
    else if now < r.links[id].createdAt then (r, Constraint)
    else if exists n :: n in LiveNamesOf(r.names, id) && now < r.names[n].createdAt then (r, Constraint)
    else if |LiveNamesOf(r.names, id)| != 1 then (r, NotFound)
    else
      var link := r.links[id].(enabled := false, updatedAt := now, deletedAt := Some(now));
      (Registry(RetireNames(r.names, id, now), r.links[id := link], r.sites), Done)
  }

  datatype Op =
    | CreateLinkOp(link: NewLink)
    | CreateSiteOp(site: NewSite)
    | SetEnabledOp(id: string, actor: Actor, enabled: bool, now: int)
    | RetireLinkOp(id: string, actor: Actor, now: int)

  function Exec(r: Registry, op: Op): (Registry, Reply) {
    match op
    case CreateLinkOp(v) => CreateLink(r, v)
    case CreateSiteOp(v) => CreateSite(r, v)
    case SetEnabledOp(id, actor, enabled, now) => SetEnabled(r, id, actor, enabled, now)
    case RetireLinkOp(id, actor, now) => RetireLink(r, id, actor, now)
  }

  // ---- What every transaction keeps ----

  /** A name that is not retired belongs to exactly the live link or site it names; a retired one to a deleted link. */
  predicate NameGood(r: Registry, n: string)
    requires n in r.names
  {
    var row := r.names[n];
    match row.kind
    case LinkName =>
      && row.resource in r.links && r.links[row.resource].slug == n && r.links[row.resource].owner == row.owner
      && (row.retiredAt.None? <==> r.links[row.resource].deletedAt.None?)
      && r.links[row.resource].createdAt == row.createdAt
    case SiteName =>
      && row.retiredAt.None?
      && row.resource in r.sites && r.sites[row.resource].name == n && r.sites[row.resource].owner == row.owner
  }

  /** A live link holds its name; a deleted link's name still has the same owner. */
  predicate LinkGood(r: Registry, id: string)
    requires id in r.links
  {
    var link := r.links[id];
    && link.slug in r.names && r.names[link.slug].owner == link.owner
    && (link.deletedAt.None? ==> r.names[link.slug].kind == LinkName && r.names[link.slug].resource == id
                                 && r.names[link.slug].retiredAt.None?)
    && (link.deletedAt.Some? ==> !link.enabled)
  }

  predicate SiteGood(r: Registry, id: string)
    requires id in r.sites
  {
    var name := r.sites[id].name;
    name in r.names && r.names[name].kind == SiteName && r.names[name].resource == id
  }

  predicate RegistryInv(r: Registry) {
    && (forall n :: n in r.names ==> NameGood(r, n))
    && (forall id :: id in r.links ==> LinkGood(r, id))
    && (forall id :: id in r.sites ==> SiteGood(r, id))
  }

  lemma {:induction false} CreateLinkKeeps(r: Registry, v: NewLink)
    requires RegistryInv(r)
    ensures RegistryInv(CreateLink(r, v).0)
  {
    var r' := CreateLink(r, v).0;
    if r' != r {
      forall n | n in r'.names ensures NameGood(r', n) {
        assert n in r.names ==> NameGood(r, n);
      }
      forall id | id in r'.links ensures LinkGood(r', id) {
        assert id in r.links ==> LinkGood(r, id);
      }
      forall id | id in r'.sites ensures SiteGood(r', id) {
        assert SiteGood(r, id);
      }
    }
  }

  lemma {:induction false} CreateSiteKeeps(r: Registry, v: NewSite)
    requires RegistryInv(r)
    ensures RegistryInv(CreateSite(r, v).0)
  {
    var r' := CreateSite(r, v).0;
    if r' != r {
      forall n | n in r'.names ensures NameGood(r', n) {
        assert n in r.names ==> NameGood(r, n);
      }
      forall id | id in r'.links ensures LinkGood(r', id) {
        assert LinkGood(r, id);
        assert r.links[id].slug == v.name ==> NameGood(r, v.name);
      }
      forall id | id in r'.sites ensures SiteGood(r', id) {
        assert id in r.sites ==> SiteGood(r, id);
      }
    }
  }

  lemma {:induction false} SetEnabledKeeps(r: Registry, id: string, actor: Actor, enabled: bool, now: int)
    requires RegistryInv(r)
    ensures RegistryInv(SetEnabled(r, id, actor, enabled, now).0)
  {
    var r' := SetEnabled(r, id, actor, enabled, now).0;
    forall n | n in r'.names ensures NameGood(r', n) {
      assert NameGood(r, n);
    }
    forall k | k in r'.links ensures LinkGood(r', k) {
      assert LinkGood(r, k);
    }
    forall k | k in r'.sites ensures SiteGood(r', k) {
      assert SiteGood(r, k);
    }
  }

  /** A live link has exactly one live name, its slug. */
  lemma {:induction false} OneLiveName(r: Registry, id: string)
    requires RegistryInv(r) && id in r.links && r.links[id].deletedAt.None?
    ensures LiveNamesOf(r.names, id) == {r.links[id].slug}
  {
    assert LinkGood(r, id);
    forall n | n in LiveNamesOf(r.names, id) ensures n == r.links[id].slug {
      assert NameGood(r, n);
    }
  }

  lemma {:induction false} RetireLinkKeeps(r: Registry, id: string, actor: Actor, now: int)
    requires RegistryInv(r)
    ensures RegistryInv(RetireLink(r, id, actor, now).0)
  {
    var r' := RetireLink(r, id, actor, now).0;
    if r' != r {
      OneLiveName(r, id);
      forall n | n in r'.names ensures NameGood(r', n) {
        assert NameGood(r, n);
      }
      forall k | k in r'.links ensures LinkGood(r', k) {
        assert LinkGood(r, k);
      }
      forall k | k in r'.sites ensures SiteGood(r', k) {
        assert SiteGood(r, k);
      }
    }
  }

  lemma {:induction false} ExecKeeps(r: Registry, op: Op)
    requires RegistryInv(r)
    ensures RegistryInv(Exec(r, op).0)
  {
    match op
    case CreateLinkOp(v) => CreateLinkKeeps(r, v);
    case CreateSiteOp(v) => CreateSiteKeeps(r, v);
    case SetEnabledOp(id, actor, enabled, now) => SetEnabledKeeps(r, id, actor, enabled, now);
    case RetireLinkOp(id, actor, now) => RetireLinkKeeps(r, id, actor, now);
  }

  function Run(r: Registry, ops: seq<Op>): Registry {
    if ops == [] then r else Exec(Run(r, ops[..|ops| - 1]), ops[|ops| - 1]).0
  }

  lemma {:induction false} RunKeeps(r: Registry, ops: seq<Op>)
    requires RegistryInv(r)
    ensures RegistryInv(Run(r, ops))
  {
    if ops != [] {
      RunKeeps(r, ops[..|ops| - 1]);
      ExecKeeps(Run(r, ops[..|ops| - 1]), ops[|ops| - 1]);
    }
  }

  // ---- Names are permanent ----

  /** A claimed name is never given up or handed to another owner, and a site's row never changes. */
  predicate Permanent(names: Names, names': Names) {
    forall n :: n in names ==>
      n in names' && names'[n].owner == names[n].owner && (names[n].kind == SiteName ==> names'[n] == names[n])
  }

  lemma {:induction false} ExecPermanent(r: Registry, op: Op)
    ensures Permanent(r.names, Exec(r, op).0.names)
  {
    match op
    case CreateLinkOp(v) =>
    case CreateSiteOp(v) =>
    case SetEnabledOp(id, actor, enabled, now) =>
    case RetireLinkOp(id, actor, now) =>
  }

  /** Over every run, from any state. */
  lemma {:induction false} NamesArePermanent(r: Registry, ops: seq<Op>)
    ensures Permanent(r.names, Run(r, ops).names)
  {
    if ops != [] {
      var before := Run(r, ops[..|ops| - 1]);
      NamesArePermanent(r, ops[..|ops| - 1]);
      ExecPermanent(before, ops[|ops| - 1]);
    }
  }

  // ---- One name, one resource ----

  /** What a visitor's request for a slug may be answered with. */
  predicate Resolvable(r: Registry, id: string, slug: string, now: int) {
    && ActiveSlug(r.links, id, slug)
    && r.links[id].enabled && r.links[id].destinations != []
    && (r.links[id].expiresAt.Some? ==> r.links[id].expiresAt.value > now)
  }

  predicate NamesLink(names: Names, name: string, id: string) {
    name in names && names[name].kind == LinkName && names[name].resource == id && names[name].retiredAt.None?
  }

  predicate NamesSite(names: Names, name: string, id: string) {
    name in names && names[name].kind == SiteName && names[name].resource == id && names[name].retiredAt.None?
  }

  /** In every reachable state the registry and the two tables agree in both directions: a live link has
      the slug under which the registry holds it, a site the name, and no name stands for two things. */
  lemma {:induction false} RegistryIsExact(ops: seq<Op>, name: string, id: string)
    ensures var r := Run(EMPTY, ops);
            && (NamesLink(r.names, name, id) <==> ActiveSlug(r.links, id, name))
            && (NamesSite(r.names, name, id) <==> id in r.sites && r.sites[id].name == name)
            && (forall other :: ActiveSlug(r.links, id, name) && ActiveSlug(r.links, other, name) ==> other == id)
            && !(ActiveSlug(r.links, id, name) && !SiteNameFree(r, name))
  {
    RunKeeps(EMPTY, ops);
  }

  // ---- Exactly when a transaction succeeds ----

  predicate Reclaimable(names: Names, name: string, owner: string) {
    name in names && names[name].owner == owner && names[name].kind == LinkName && names[name].retiredAt.Some?
  }

  /** After a successful claim the unique constraints on slugs and site names are never hit. */
  lemma {:induction false} ClaimedIsFree(r: Registry, name: string, owner: string, kind: Kind, id: string, now: int,
                                         allowReclaim: bool)
    requires RegistryInv(r) && Won(ClaimName(r.names, name, owner, kind, id, now, allowReclaim).1)
    ensures SlugFree(r, name) && SiteNameFree(r, name)
  {
    forall k | k in r.links ensures !ActiveSlug(r.links, k, name) {
      assert LinkGood(r, k);
    }
    forall k | k in r.sites ensures r.sites[k].name != name {
      assert SiteGood(r, k);
      assert name in r.names ==> NameGood(r, name);
    }
  }

  /** A link is created exactly when the owner is active, the name is new and within the owner's quota or
      is the owner's own retired link name and reclaiming was confirmed, the link does not start expired, and
      the table takes its destinations. Given a fresh ID, nothing else can refuse it. */
  lemma {:induction false} CreateLinkIff(r: Registry, v: NewLink)
    requires RegistryInv(r) && v.id !in r.links
    ensures CreateLink(r, v).1 == Done <==>
              && v.ownerActive
              && (if v.slug in r.names then Reclaimable(r.names, v.slug, v.owner) && v.allowReclaim
                  else |LinkNames(r.names, v.owner)| < v.maxLinks)
              && (v.expiresAt.Some? ==> v.now < v.expiresAt.value)
              && Insertable(v.destinations, TakenIds(r.links))
    ensures CreateLink(r, v).1 == NeedsConfirmation <==>
              v.ownerActive && Reclaimable(r.names, v.slug, v.owner) && !v.allowReclaim
    ensures CreateLink(r, v).1 == Done ==> ActiveSlug(CreateLink(r, v).0.links, v.id, v.slug)
  {
    var (names, claim) := ClaimName(r.names, v.slug, v.owner, LinkName, v.id, v.now, v.allowReclaim);
    InsertedExactly(v.destinations, TakenIds(r.links));
    if Won(claim) {
      ClaimedIsFree(r, v.slug, v.owner, LinkName, v.id, v.now, v.allowReclaim);
      ClaimCounts(r.names, v.slug, v.owner, v.id, v.now, v.allowReclaim);
    }
    forall n | n in r.names ensures !(r.names[n].kind == LinkName && r.names[n].resource == v.id) {
      assert NameGood(r, n);
    }
  }

  /** A site is created exactly when the owner is active and within the site quota, and the name is new or
      is the owner's own retired link name and reclaiming was confirmed. It then stands for the site for good. */
  lemma {:induction false} CreateSiteIff(r: Registry, v: NewSite)
    requires RegistryInv(r) && v.id !in r.sites
    ensures CreateSite(r, v).1 == Done <==>
              && v.ownerActive && |OwnedSites(r, v.owner)| < v.maxSites
              && (v.name in r.names ==> Reclaimable(r.names, v.name, v.owner) && v.allowReclaim)
    ensures CreateSite(r, v).1 == Done ==> NamesSite(CreateSite(r, v).0.names, v.name, v.id)
  {
    if Won(ClaimName(r.names, v.name, v.owner, SiteName, v.id, v.now, v.allowReclaim).1) {
      ClaimedIsFree(r, v.name, v.owner, SiteName, v.id, v.now, v.allowReclaim);
    }
    forall n | n in r.names ensures !(r.names[n].kind == SiteName && r.names[n].resource == v.id) {
      assert NameGood(r, n);
    }
  }

  /** Claiming a new link name adds one to its owner's count; reclaiming one changes no count. */
  lemma {:induction false} ClaimCounts(
    names: Names, name: string, owner: string, id: string, now: int, allowReclaim: bool)
    ensures var (names', claim) := ClaimName(names, name, owner, LinkName, id, now, allowReclaim);
            && (forall u :: u != owner ==> LinkNames(names', u) == LinkNames(names, u))
            && (claim == Claimed ==> |LinkNames(names', owner)| == |LinkNames(names, owner)| + 1)
            && (claim != Claimed ==> LinkNames(names', owner) == LinkNames(names, owner))
  {
    if name !in names {
      NewNameCounts(names, name, NameRow(owner, LinkName, id, now, None));
    }
  }

  lemma {:induction false} NewNameCounts(names: Names, name: string, row: NameRow)
    requires name !in names && row.kind == LinkName
    ensures |LinkNames(names[name := row], row.owner)| == |LinkNames(names, row.owner)| + 1
    ensures forall u :: u != row.owner ==> LinkNames(names[name := row], u) == LinkNames(names, u)
  {
    assert LinkNames(names[name := row], row.owner) == LinkNames(names, row.owner) + {name};
  }

  /** A retirement by someone who may manage the link always goes through, unless the clock has gone back
      behind the link's creation, and then the name resolves to nothing. */
  lemma {:induction false} RetireIff(r: Registry, id: string, actor: Actor, now: int)
    requires RegistryInv(r)
    ensures var (r', reply) := RetireLink(r, id, actor, now);
            && (reply == Done <==> MayManage(r, id, actor) && r.links[id].createdAt <= now)
            && (reply == Done ==>
                  var slug := r.links[id].slug;
                  && Reclaimable(r'.names, slug, r.links[id].owner)
                  && SlugFree(r', slug) && SiteNameFree(r', slug))
  {
    var (r', reply) := RetireLink(r, id, actor, now);
    if MayManage(r, id, actor) {
      OneLiveName(r, id);
      var slug := r.links[id].slug;
      assert NameGood(r, slug) && LinkGood(r, id);
      if r.links[id].createdAt <= now {
        RetireLinkKeeps(r, id, actor, now);
        RetiredIsFree(r', slug);
      }
    }
  }

  lemma {:induction false} RetiredIsFree(r: Registry, slug: string)
    requires RegistryInv(r) && slug in r.names && r.names[slug].retiredAt.Some?
    ensures SlugFree(r, slug) && SiteNameFree(r, slug)
  {
    forall k | k in r.links ensures !ActiveSlug(r.links, k, slug) {
      assert LinkGood(r, k);
    }
    forall k | k in r.sites ensures r.sites[k].name != slug {
      assert SiteGood(r, k) && NameGood(r, slug);
    }
  }

  // ---- Quota ----

  lemma {:induction false} LinkNamesShrink(names: Names, names': Names, u: string)
    requires LinkNames(names', u) <= LinkNames(names, u)
    ensures |LinkNames(names', u)| <= |LinkNames(names, u)|
  {
    assert |LinkNames(names, u)| == |LinkNames(names', u)| + |LinkNames(names, u) - LinkNames(names', u)|;
  }

  ghost predicate AllWithin(names: Names, maxLinks: nat) {
    forall u :: |LinkNames(names, u)| <= maxLinks
  }

  lemma {:induction false} ExecWithin(r: Registry, op: Op, maxLinks: nat)
    requires AllWithin(r.names, maxLinks) && (op.CreateLinkOp? ==> op.link.maxLinks == maxLinks)
    ensures AllWithin(Exec(r, op).0.names, maxLinks)
  {
    var names' := Exec(r, op).0.names;
    forall u ensures |LinkNames(names', u)| <= maxLinks {
      match op
      case CreateLinkOp(v) =>
        ClaimCounts(r.names, v.slug, v.owner, v.id, v.now, v.allowReclaim);
      case CreateSiteOp(v) =>
        LinkNamesShrink(r.names, names', u);
      case SetEnabledOp(_, _, _, _) =>
      case RetireLinkOp(id, _, now) =>
        LinkNamesShrink(r.names, names', u);
    }
  }

  /** With one limit in force no owner ever holds more link names, retired ones included. */
  lemma {:induction false} QuotaHolds(ops: seq<Op>, maxLinks: nat)
    requires forall i :: 0 <= i < |ops| && ops[i].CreateLinkOp? ==> ops[i].link.maxLinks == maxLinks
    ensures AllWithin(Run(EMPTY, ops).names, maxLinks)
  {
    if ops == [] {
      assert forall u :: LinkNames(EMPTY.names, u) == {};
    } else {
      QuotaHolds(ops[..|ops| - 1], maxLinks);
      ExecWithin(Run(EMPTY, ops[..|ops| - 1]), ops[|ops| - 1], maxLinks);
    }
  }

  // ---- Destinations ----

  /** At most 25 rows, labels and targets within their lengths, and IDs that are new and all different. */
  predicate Insertable(values: seq<NewDestination>, taken: set<string>) {
    && |values| <= MAX_POSITION + 1
    && (forall i :: 0 <= i < |values| ==>
          |values[i].text| <= 120 && 1 <= |values[i].url| <= 4096 && values[i].id !in taken)
    && (forall i, j :: 0 <= i < j < |values| ==> values[i].id != values[j].id)
  }

  /** The rows stand in the order given, numbered from zero. */
  predicate Placed(rows: seq<Destination>, values: seq<NewDestination>) {
    && |rows| == |values|
    && forall i :: 0 <= i < |values| ==> rows[i] == Destination(values[i].id, i, values[i].text, values[i].url)
  }

  lemma {:induction false} InsertedExactly(values: seq<NewDestination>, taken: set<string>)
    ensures Inserted(values, taken).Some? <==> Insertable(values, taken)
    ensures Inserted(values, taken).Some? ==> Placed(Inserted(values, taken).value, values)
  {
    if values != [] {
      var n := |values| - 1;
      InsertedExactly(values[..n], taken);
      var rows := Inserted(values[..n], taken);
      assert forall i :: 0 <= i < n ==> values[..n][i] == values[i];
      if rows.Some? {
        PlacedIds(rows.value, values[..n], values[n].id);
      }
    }
  }

  lemma {:induction false} PlacedIds(rows: seq<Destination>, values: seq<NewDestination>, id: string)
    requires Placed(rows, values)
    ensures id in Ids(rows) <==> exists i :: 0 <= i < |values| && values[i].id == id
  {
    forall i | 0 <= i < |values| ensures values[i].id in Ids(rows) {
      assert rows[i].id == values[i].id;
    }
  }

  lemma {:induction false} IdsSnoc(rows: seq<Destination>, row: Destination)
    ensures Ids(rows + [row]) == Ids(rows) + {row.id}
  {
    forall i | 0 <= i < |rows| ensures rows[i].id in Ids(rows + [row]) {
      assert (rows + [row])[i] == rows[i];
    }
    assert (rows + [row])[|rows|] == row;
  }

  lemma {:induction false} RefusedStays(values: seq<NewDestination>, taken: set<string>, n: nat)
    requires n <= |values| && Inserted(values[..n], taken).None?
    ensures Inserted(values, taken).None?
    decreases |values| - n
  {
    if n < |values| {
      assert values[..n + 1][..n] == values[..n];
      RefusedStays(values, taken, n + 1);
    } else {
      assert values[..n] == values;
    }
  }

  predicate Stored(links: map<string, LinkRow>, l: string, i: int) {
    l in links && 0 <= i < |links[l].destinations|
  }

  /** Over every run: each link's rows are numbered in order, and no two rows of the table share an ID. */
  ghost predicate DestinationsGood(links: map<string, LinkRow>) {
    && (forall l, i :: Stored(links, l, i) ==> links[l].destinations[i].position == i)
    && (forall l, i, m, j :: Stored(links, l, i) && Stored(links, m, j) ==>
          links[l].destinations[i].id == links[m].destinations[j].id ==> l == m && i == j)
  }

  lemma {:induction false} DestinationsStayDistinct(ops: seq<Op>)
    ensures DestinationsGood(Run(EMPTY, ops).links)
  {
    if ops != [] {
      DestinationsStayDistinct(ops[..|ops| - 1]);
      var r, op := Run(EMPTY, ops[..|ops| - 1]), ops[|ops| - 1];
      if op.CreateLinkOp? {
        LinkDestinations(r, op.link);
      } else {
        assert SameDestinations(r.links, Exec(r, op).0.links);
      }
    }
  }

  predicate SameDestinations(a: map<string, LinkRow>, b: map<string, LinkRow>) {
    a.Keys == b.Keys && forall l :: l in a ==> a[l].destinations == b[l].destinations
  }

  lemma {:induction false} LinkDestinations(r: Registry, v: NewLink)
    requires DestinationsGood(r.links)
    ensures DestinationsGood(CreateLink(r, v).0.links)
  {
    InsertedExactly(v.destinations, TakenIds(r.links));
  }

  // ---- Resolving ----

  /** A slug is answered from exactly the live link that the registry names, if it is enabled, has
      somewhere to go, and has not expired. */
  lemma {:induction false} ResolvesByRegistry(ops: seq<Op>, slug: string, id: string, now: int)
    ensures var r := Run(EMPTY, ops);
            Resolvable(r, id, slug, now) <==>
              && NamesLink(r.names, slug, id) && id in r.links
              && r.links[id].enabled && r.links[id].destinations != []
              && (r.links[id].expiresAt.Some? ==> r.links[id].expiresAt.value > now)
  {
    RegistryIsExact(ops, slug, id);
  }

  // ---- The tables ----

  /** A transaction works on local copies and assigns them back when it commits. */
  class NameStore {
    var names: Names
    var links: map<string, LinkRow>
    var sites: map<string, SiteRow>

    function State(): Registry
      reads this
    {
      Registry(names, links, sites)
    }

    constructor ()
      ensures State() == EMPTY
    {
      names, links, sites := map[], map[], map[];
    }

    static method ClaimPublicName(
      names: Names, name: string, owner: string, kind: Kind, resource: string, now: int, allowReclaim: bool)
      returns (names': Names, claim: Claim)
      ensures (names', claim) == ClaimName(names, name, owner, kind, resource, now, allowReclaim)
    {
      // INSERT ... ON CONFLICT(name) DO NOTHING
      if name !in names {
        return names[name := NameRow(owner, kind, resource, now, None)], Claimed;
      }
      var existing := names[name];
      if existing.owner != owner || existing.kind != LinkName || existing.retiredAt.None? {
        return names, Unavailable;
      }
      if !allowReclaim {
        return names, ConfirmFirst;
      }
      existing := existing.(kind := kind, resource := resource, createdAt := now, retiredAt := None);
      return names[name := existing], Reclaimed;
    }

    method CreateShortLink(v: NewLink) returns (reply: Reply)
      modifies this
      ensures (State(), reply) == CreateLink(old(State()), v)
    {
      if !v.ownerActive {
        return Forbidden;
      }
      var names', claim := ClaimPublicName(names, v.slug, v.owner, LinkName, v.id, v.now, v.allowReclaim);
      if claim == ConfirmFirst {
        return NeedsConfirmation;
      }
      if claim == Unavailable {
        return NameTaken;
      }
      if !ResourceFree(names, LinkName, v.id) {
        return Constraint;
      }
      if claim == Claimed {
        var linkNames := |LinkNames(names', v.owner)|;
        if linkNames > v.maxLinks {
          return OverLimit;
        }
      }
      if v.id in links || !SlugFree(State(), v.slug) {
        return Constraint;
      }
      if v.expiresAt.Some? && v.expiresAt.value <= v.now {
        return Constraint;
      }
      var destinations := InsertDestinations(v.destinations, TakenIds(links));
      if destinations.None? {
        return Constraint;
      }
      var link := LinkRow(v.owner, v.slug, true, destinations.value, v.now, v.now, v.expiresAt, None);
      names, links := names', links[v.id := link];
      return Done;
    }

    /** Inserts row by row, and gives up at the first that the table refuses. */
    static method InsertDestinations(values: seq<NewDestination>, taken: set<string>)
      returns (result: Option<seq<Destination>>)
      ensures result.Some? <==> Insertable(values, taken)
      ensures result.Some? ==> Placed(result.value, values)
      ensures result == Inserted(values, taken)
    {
      InsertedExactly(values, taken);
      var rows, ids := [], taken;
      for position := 0 to |values|
        invariant Inserted(values[..position], taken) == Some(rows) && ids == taken + Ids(rows)
      {
        var v := values[position];
        assert values[..position + 1][..position] == values[..position];
        if !Acceptable(v, position, ids) {
          RefusedStays(values, taken, position + 1);
          return None;
        }
        var row := Destination(v.id, position, v.text, v.url);
        IdsSnoc(rows, row);
        rows, ids := rows + [row], ids + {v.id};
      }
      assert values[..|values|] == values;
      return Some(rows);
    }

    method CreateNewSite(v: NewSite) returns (reply: Reply)
      modifies this
      ensures (State(), reply) == CreateSite(old(State()), v)
    {
      if !v.ownerActive {
        return Forbidden;
      }
      if |OwnedSites(State(), v.owner)| >= v.maxSites {
        return OverLimit;
      }
      var names', claim := ClaimPublicName(names, v.name, v.owner, SiteName, v.id, v.now, v.allowReclaim);
      if claim == ConfirmFirst {
        return NeedsConfirmation;
      }
      if claim == Unavailable {
        return NameTaken;
      }
      if !ResourceFree(names, SiteName, v.id) || v.id in sites || !SiteNameFree(State(), v.name) {
        return Constraint;
      }
      names, sites := names', sites[v.id := SiteRow(v.owner, v.name, true, v.now)];
      return Done;
    }

    method SetShortLinkEnabled(id: string, actor: Actor, enabled: bool, now: int) returns (reply: Reply)
      modifies this
      ensures (State(), reply) == SetEnabled(old(State()), id, actor, enabled, now)
    {
      if !MayManage(State(), id, actor) {
        return NotFound;
      }
      if now < links[id].createdAt {
        return Constraint;
      }
      links := links[id := links[id].(enabled := enabled, updatedAt := now)];
      return Done;
    }

    method RetireShortLink(id: string, actor: Actor, now: int) returns (reply: Reply)
      modifies this
      ensures (State(), reply) == RetireLink(old(State()), id, actor, now)
    {
      if !MayManage(State(), id, actor) {
        return NotFound;
      }
      if now < links[id].createdAt {
        return Constraint;
      }
      var link := links[id].(enabled := false, updatedAt := now, deletedAt := Some(now));
      var retired := LiveNamesOf(names, id);
      if exists n :: n in retired && now < names[n].createdAt {
        return Constraint;
      }
      if |retired| != 1 {
        return NotFound;
      }
      names, links := RetireNames(names, id, now), links[id := link];
      return Done;
    }

    /** The rows of the join, gathered into the link and its destinations. */
    method ResolveShortLink(slug: string, now: int) returns (found: Option<string>, destinations: seq<Destination>)
      requires RegistryInv(State())
      ensures found.Some? ==> Resolvable(State(), found.value, slug, now)
      ensures found.Some? ==> destinations == links[found.value].destinations
      ensures found.None? <==> forall id :: !Resolvable(State(), id, slug, now)
    {
      destinations := [];
      if id :| id in links && Resolvable(State(), id, slug, now) {
        for i := 0 to |links[id].destinations|
          invariant destinations == links[id].destinations[..i]
        {
          destinations := destinations + [links[id].destinations[i]];
        }
        return Some(id), destinations;
      }
      return None, [];
    }

    method SiteByName(name: string) returns (found: Option<string>)
      requires RegistryInv(State())
      ensures forall id :: found == Some(id) <==> id in sites && sites[id].name == name
    {
      if name in names && names[name].kind == SiteName && names[name].retiredAt.None? {
        return Some(names[name].resource);
      }
      return None;
    }
  }
}
