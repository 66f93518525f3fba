/** What the action for a song says: its keys, its title, what it waits for, and whether
    the item it claims is already the profile's own. */
module ActionContents {
  import opened Prelude
  import opened Agendas
  import opened Actions
  import opened Layout
  import opened Sorting
  import opened Placements
  import opened PlanTheorems
  import opened PlanOrder
  import opened Setlist
  import opened SongSlices
  import opened StandingSongs
  import Authority
  import Slices

  /** The profile has a row for the item. */
  ghost predicate Managed(job: Job, itemId: Id) {
    exists o :: o in job.ownerships && o.agendaItemId == itemId && o.profileId == job.profileId
  }

  /** The action placement `rule` makes for the i-th song of the setlist. */
  ghost predicate Spells(job: Job, rule: PlacementRule, i: nat, draft: Draft) {
    && i < |job.songIds| && draft.body.PlacesSong()
    && var key := rule.id + ":" + Decimal(i) + ":" + job.songIds[i];
       && draft.body.sourceKey == key && draft.body.placementId == rule.id
       && (draft.body.song.songKey.Some? ==> draft.body.song.songKey.value in draft.dependencies)
       && (draft.body.song.arrangementKey.Some? ==> draft.body.song.arrangementKey.value in draft.dependencies)
       && match draft.body
          case InsertItem(_, _, _, title, resourceKey, initialIds, _) =>
            title == job.title && resourceKey == "agenda:" + job.eventId + ":" + key && initialIds == Ids(job.items)
          case ReplaceItem(_, _, _, title, itemId, owned) => title == job.title && (owned <==> Managed(job, itemId))
          case Noop(_, _, _, itemId, owned) => owned <==> Managed(job, itemId)
          case _ => false
  }

  lemma OwnedIsManaged(job: Job, itemId: Id)
    requires Sound(job)
    ensures AlreadyOwned(job, itemId) <==> Managed(job, itemId)
  {
    if Managed(job, itemId) {
      var o :| o in job.ownerships && o.agendaItemId == itemId && o.profileId == job.profileId;
      OwnerIs(job.ownerships, o);
    }
    if AlreadyOwned(job, itemId) {
      Authority.OwnerIsRow(job.ownerships, itemId);
    }
  }

  lemma SongSpells(job: Job, rule: PlacementRule, i: nat, p: Planning, c: Cursor)
    requires Sound(job) && i < |job.songIds| && !c.blocked
    ensures var (p', c') := PlaceSong(job, rule, i, p, c);
            !c'.blocked ==> |p'.drafts| == |p.drafts| + 1 && Spells(job, rule, i, p'.drafts[|p.drafts|])
  {
    var at := SkipReserved(job.items, c.at, p.reserved);
    if at < |job.items| && job.items[at].IsSong() {
      OwnedIsManaged(job, job.items[at].id);
    }
  }

  /** The drafts from b on are for the songs [lo, k), in this order. */
  ghost predicate SpellAll(job: Job, rule: PlacementRule, drafts: seq<Draft>, b: nat, lo: nat, k: nat) {
    && lo <= k && b + (k - lo) <= |drafts|
    && forall i :: lo <= i < k ==> SpellsAt(job, rule, drafts, b, lo, i)
  }

  ghost predicate SpellsAt(job: Job, rule: PlacementRule, drafts: seq<Draft>, b: nat, lo: nat, i: nat) {
    lo <= i && b + (i - lo) < |drafts| && Spells(job, rule, i, drafts[b + (i - lo)])
  }

  lemma SpellsLonger(job: Job, rule: PlacementRule, drafts: seq<Draft>, longer: seq<Draft>, b: nat, lo: nat, k: nat)
    requires drafts <= longer && SpellAll(job, rule, drafts, b, lo, k)
    ensures SpellAll(job, rule, longer, b, lo, k)
  {
    hide Spells;
    forall i | lo <= i < k ensures SpellsAt(job, rule, longer, b, lo, i) {
      assert SpellsAt(job, rule, drafts, b, lo, i);
    }
  }

  lemma {:induction false} SongsSpell(job: Job, rule: PlacementRule, lo: nat, k: nat, p: Planning, c: Cursor)
    requires Sound(job) && lo <= k <= |job.songIds| && !c.blocked
    ensures var (p', c') := PlaceSongs(job, rule, lo, k, p, c);
            !c'.blocked ==> SpellAll(job, rule, p'.drafts, |p.drafts|, lo, k)
  {
    hide PlaceSong, Spells, HasErrors, ForSongs;
    if k > lo {
      SongsSpell(job, rule, lo, k - 1, p, c);
      SongsAdd(job, rule, lo, k - 1, p, c);
      var (p1, c1) := PlaceSongs(job, rule, lo, k - 1, p, c);
      if c1.blocked {
        BlockedSkips(job, rule, k - 1, p1, c1);
      } else {
        SongSpells(job, rule, k - 1, p1, c1);
        SongAdds(job, rule, k - 1, p1, c1);
        var (p2, c2) := PlaceSong(job, rule, k - 1, p1, c1);
        if !c2.blocked {
          SpellsNext(job, rule, p1.drafts, p2.drafts, |p.drafts|, lo, k - 1);
        }
      }
    }
  }

  lemma SpellsNext(job: Job, rule: PlacementRule, drafts: seq<Draft>, longer: seq<Draft>, b: nat, lo: nat, k: nat)
    requires drafts <= longer && SpellAll(job, rule, drafts, b, lo, k) && |drafts| == b + (k - lo) < |longer|
    requires Spells(job, rule, k, longer[|drafts|])
    ensures SpellAll(job, rule, longer, b, lo, k + 1)
  {
    hide Spells;
    SpellsLonger(job, rule, drafts, longer, b, lo, k);
    assert SpellsAt(job, rule, longer, b, lo, k);
  }

  lemma RuleSpells(job: Job, rule: PlacementRule, p: Planning)
    requires Sound(job) && !HasErrors(PlaceRule(job, rule, p).issues)
    ensures SpellAll(job, rule, PlaceRule(job, rule, p).drafts, |p.drafts|,
                     SliceStart(rule, |job.songIds|), SliceEnd(rule, |job.songIds|))
  {
    hide PlaceRule, PlaceSongs, SpellAll, HasErrors, SliceStart, SliceEnd;
    RuleAdds(job, rule, p);
    var lo, hi, start := SliceStart(rule, |job.songIds|), SliceEnd(rule, |job.songIds|), StartOf(job, rule, p);
    SongsAdd(job, rule, lo, hi, start, RuleStart(job, rule));
    SongsSpell(job, rule, lo, hi, start, RuleStart(job, rule));
  }

  lemma PlanSpells(job: Job, rules: seq<PlacementRule>, r: nat)
    requires Sound(job) && !HasErrors(Drafted(job, rules).issues) && r < |rules|
    ensures SpellAll(job, rules[r], Drafted(job, rules).drafts, Offset(job, rules, r),
                     SliceStart(rules[r], |job.songIds|), SliceEnd(rules[r], |job.songIds|))
  {
    hide PlaceRule, PlaceRules, SpellAll, HasErrors, SliceStart, SliceEnd, CleanUpAll;
    var earlier, rule := rules[..r], rules[r];
    assert rules[..r + 1] == earlier + [rule];
    NoEarlierErrors(job, rules, r + 1);
    Slices.LastRule(job, earlier, rule);
    RuleSpells(job, rule, PlaceRules(job, earlier));
    RulesGrow(job, rules, r + 1);
    CleanUpExtends(job, Sort(job.ownerships, OwnershipLeq), PlaceRules(job, rules));
    var lo, hi := SliceStart(rule, |job.songIds|), SliceEnd(rule, |job.songIds|);
    SpellsLonger(job, rule, PlaceRules(job, rules[..r + 1]).drafts, Drafted(job, rules).drafts, Offset(job, rules, r), lo, hi);
  }

  /** Every song that a placement selects has an action of the plan, which says what it
      is for and what it waits for. */
  lemma SelectedIsSpelled(job: Job, rules: seq<PlacementRule>, newIds: seq<Id>, s: Setting, r: nat, i: nat)
    requires Executable(job, rules, newIds, s) && r < |rules| && Selects(rules[r], |job.songIds|, i)
    ensures job.Valid()
    ensures exists j :: 0 <= j < |Drafted(job, rules).drafts| && Spells(job, rules[r], i, Drafted(job, rules).drafts[j])
  {
    hide Spells, Drafted, Offset;
    Slices.PlacedWithoutErrors(job, rules, newIds, s);
    RangeIsSelection(rules[r], |job.songIds|, i);
    PlanSpells(job, rules, r);
    var lo, hi := SliceStart(rules[r], |job.songIds|), SliceEnd(rules[r], |job.songIds|);
    assert SpellsAt(job, rules[r], Drafted(job, rules).drafts, Offset(job, rules, r), lo, i);
  }
}
