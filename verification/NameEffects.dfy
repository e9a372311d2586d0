/** What each transaction on public names leaves behind, and what it answers. */
module NameEffects {
  import opened Wrappers
  import opened PublicNames

  /** Nothing has changed but the rows of this name, this link and this site. */
  ghost predicate OthersKept(r: Registry, r': Registry, name: string, link: Option<string>, site: Option<string>) {
    && (forall n :: n != name ==> (n in r'.names <==> n in r.names) && (n in r.names ==> r'.names[n] == r.names[n]))
    && (forall id :: link != Some(id) ==> (id in r'.links <==> id in r.links) && (id in r.links ==> r'.links[id] == r.links[id]))
    && (forall id :: site != Some(id) ==> (id in r'.sites <==> id in r.sites) && (id in r.sites ==> r'.sites[id] == r.sites[id]))
  }

  /** Any answer but success leaves the tables as they were. */
  lemma {:induction false} RefusedUnchanged(r: Registry, op: Op)
    ensures Exec(r, op).1 != Done ==> Exec(r, op).0 == r
  {
  }

  // ---- Links ----

  /** A created link is the one asked for, enabled, and its name says so. */
  lemma {:induction false} LinkCreated(r: Registry, v: NewLink)
    requires CreateLink(r, v).1 == Done
    ensures var r' := CreateLink(r, v).0;
            && v.id in r'.links
            && r'.links[v.id] == LinkRow(v.owner, v.slug, true, r'.links[v.id].destinations, v.now, v.now, v.expiresAt, None)
            && Placed(r'.links[v.id].destinations, v.destinations)
            && v.slug in r'.names && r'.names[v.slug] == NameRow(v.owner, LinkName, v.id, v.now, None)
            && OthersKept(r, r', v.slug, Some(v.id), None)
  {
    InsertedExactly(v.destinations, TakenIds(r.links));
  }

  /** Which refusal a new link meets: of the owner, of the name, or of the quota, in this order. */
  lemma {:induction false} LinkRefusals(r: Registry, v: NewLink)
    requires RegistryInv(r) && v.id !in r.links
    ensures var reply := CreateLink(r, v).1;
            && (reply == Forbidden <==> !v.ownerActive)
            && (reply == NameTaken <==> v.ownerActive && v.slug in r.names && !Reclaimable(r.names, v.slug, v.owner))
            && (reply == OverLimit <==>
                  v.ownerActive && v.slug !in r.names && |LinkNames(r.names, v.owner)| >= v.maxLinks)
            && reply != NotFound
  {
    ClaimCounts(r.names, v.slug, v.owner, v.id, v.now, v.allowReclaim);
    forall n | n in r.names ensures !(r.names[n].kind == LinkName && r.names[n].resource == v.id) {
      assert NameGood(r, n);
    }
  }

  /** A link is managed by its owner, or by someone who may manage all, as long as it is not retired. */
  predicate ManagedBy(r: Registry, id: string, actor: Actor) {
    id in r.links && r.links[id].deletedAt == None && (actor.includeAll || r.links[id].owner == actor.user)
  }

  /** Enabling or disabling does just that, for whoever manages the link. */
  lemma {:induction false} EnabledSet(r: Registry, id: string, actor: Actor, enabled: bool, now: int)
    ensures var (r', reply) := SetEnabled(r, id, actor, enabled, now);
            && (reply == NotFound <==> !ManagedBy(r, id, actor))
            && (reply == Done <==> ManagedBy(r, id, actor) && r.links[id].createdAt <= now)
            && (reply == Done ==>
                  && r'.names == r.names && r'.sites == r.sites
                  && r'.links == r.links[id := r.links[id].(enabled := enabled, updatedAt := now)])
  {
  }

  /** A visitor is served by a live link if and only if it was enabled last, has somewhere to go, and has not expired. */
  lemma {:induction false} ServedIfEnabled(r: Registry, id: string, actor: Actor, enabled: bool, now: int, later: int)
    requires SetEnabled(r, id, actor, enabled, now).1 == Done
    ensures var r' := SetEnabled(r, id, actor, enabled, now).0;
            Resolvable(r', id, r.links[id].slug, later) <==>
              && enabled && r.links[id].destinations != []
              && (r.links[id].expiresAt.Some? ==> r.links[id].expiresAt.value > later)
  {
  }

  lemma {:induction false} RetiredBy(r: Registry, id: string, actor: Actor, now: int)
    requires RegistryInv(r)
    ensures var reply := RetireLink(r, id, actor, now).1;
            && (reply == NotFound <==> !ManagedBy(r, id, actor))
            && (reply == Done <==> ManagedBy(r, id, actor) && r.links[id].createdAt <= now)
  {
    RetireIff(r, id, actor, now);
    if ManagedBy(r, id, actor) {
      OneLiveName(r, id);
    }
  }

  /** A retired link is marked with the time, and so is its name. It serves nobody. */
  lemma {:induction false} LinkRetired(r: Registry, id: string, actor: Actor, now: int)
    requires RegistryInv(r) && RetireLink(r, id, actor, now).1 == Done
    ensures id in r.links && r.links[id].slug in r.names
    ensures var r', slug := RetireLink(r, id, actor, now).0, r.links[id].slug;
            && id in r'.links
            && r'.links[id] == r.links[id].(enabled := false, updatedAt := now, deletedAt := Some(now))
            && slug in r'.names && r'.names[slug] == r.names[slug].(retiredAt := Some(now))
            && OthersKept(r, r', slug, Some(id), None)
            && forall later, other :: !Resolvable(r', other, slug, later)
  {
    OneLiveName(r, id);
    assert LinkGood(r, id);
    forall other | other in r.links && r.links[other].slug == r.links[id].slug && r.links[other].deletedAt.None?
      ensures other == id
    {
      assert LinkGood(r, other);
    }
  }

  // ---- Sites ----

  lemma {:induction false} SiteCreated(r: Registry, v: NewSite)
    requires CreateSite(r, v).1 == Done
    ensures var r' := CreateSite(r, v).0;
            && v.id in r'.sites && r'.sites[v.id] == SiteRow(v.owner, v.name, true, v.now)
            && v.name in r'.names && r'.names[v.name] == NameRow(v.owner, SiteName, v.id, v.now, None)
            && OthersKept(r, r', v.name, None, Some(v.id))
  {
  }

  lemma {:induction false} SiteRefusals(r: Registry, v: NewSite)
    requires RegistryInv(r) && v.id !in r.sites
    ensures var reply, room := CreateSite(r, v).1, |OwnedSites(r, v.owner)| < v.maxSites;
            && (reply == Forbidden <==> !v.ownerActive)
            && (reply == OverLimit <==> v.ownerActive && !room)
            && (reply == NameTaken <==>
                  v.ownerActive && room && v.name in r.names && !Reclaimable(r.names, v.name, v.owner))
            && (reply == NeedsConfirmation <==>
                  v.ownerActive && room && Reclaimable(r.names, v.name, v.owner) && !v.allowReclaim)
  {
    forall n | n in r.names ensures !(r.names[n].kind == SiteName && r.names[n].resource == v.id) {
      assert NameGood(r, n);
    }
    CreateSiteIff(r, v);
  }
}
