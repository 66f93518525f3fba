/** Delete authority over whole histories of runs: any number of profiles plan and
    verify in any interleaving, each plan with the ownership rows of its own time. */
module Authority {
  import opened Agendas
  import opened Actions
  import opened Sorting
  import opened Placements
  import opened PlanShape
  import opened PlanTheorems
  import opened Setlist
  import opened Bindings

  // A planned NOOP says truly whether its item is owned already.

  ghost predicate TrueNoops(job: Job, drafts: seq<Draft>) {
    forall i :: 0 <= i < |drafts| && drafts[i].body.Noop? && drafts[i].body.alreadyOwned ==>
      AlreadyOwned(job, drafts[i].body.itemId)
  }

  lemma SongTrue(job: Job, rule: PlacementRule, i: nat, p: Planning, c: Cursor)
    requires i < |job.songIds| && job.songIds[i] in job.resources && TrueNoops(job, p.drafts)
    ensures TrueNoops(job, PlaceSong(job, rule, i, p, c).0.drafts)
  {
  }

  lemma {:induction false} SongsTrue(job: Job, rule: PlacementRule, lo: nat, k: nat, p: Planning, c: Cursor)
    requires job.Valid() && lo <= k <= |job.songIds| && TrueNoops(job, p.drafts)
    ensures TrueNoops(job, PlaceSongs(job, rule, lo, k, p, c).0.drafts)
  {
    hide PlaceSong, TrueNoops;
    if k > lo {
      var (p', c') := PlaceSongs(job, rule, lo, k - 1, p, c);
      SongsTrue(job, rule, lo, k - 1, p, c);
      SongTrue(job, rule, k - 1, p', c');
    }
  }

  lemma {:induction false} RulesTrue(job: Job, rules: seq<PlacementRule>)
    requires job.Valid()
    ensures TrueNoops(job, PlaceRules(job, rules).drafts)
  {
    if rules != [] {
      var rule, p := rules[|rules| - 1], PlaceRules(job, rules[..|rules| - 1]);
      RulesTrue(job, rules[..|rules| - 1]);
      if Admitted(job, rule, p) {
        SongsTrue(job, rule, SliceStart(rule, |job.songIds|), SliceEnd(rule, |job.songIds|), StartOf(job, rule, p),
                  RuleStart(job, rule));
      }
    }
  }

  lemma {:induction false} CleanUpTrue(job: Job, rows: seq<Ownership>, p: Planning)
    requires TrueNoops(job, p.drafts)
    ensures TrueNoops(job, CleanUpAll(job, rows, p).drafts)
  {
    if rows != [] {
      CleanUpTrue(job, rows[..|rows| - 1], p);
    }
  }

  lemma NoopsAreTrue(job: Job, rules: seq<PlacementRule>, body: Body)
    requires job.Valid() && body in Planned(job, rules) && body.Noop? && body.alreadyOwned
    ensures AlreadyOwned(job, body.itemId)
  {
    var drafts := Drafted(job, rules).drafts;
    RulesTrue(job, rules);
    CleanUpTrue(job, Sort(job.ownerships, OwnershipLeq), PlaceRules(job, rules));
    var i :| 0 <= i < |Bodies(drafts)| && Bodies(drafts)[i] == body;
    assert drafts[i].body == body;
  }

  lemma {:induction false} OwnerIsRow(rows: seq<Ownership>, itemId: Id)
    requires OwnershipOf(rows, itemId).Some?
    ensures OwnershipOf(rows, itemId).value in rows && OwnershipOf(rows, itemId).value.agendaItemId == itemId
  {
    var n := |rows| - 1;
    if rows[n].agendaItemId != itemId {
      OwnerIsRow(rows[..n], itemId);
    }
  }

  // Histories of runs.

  /** An action that was verified, and the plan it belongs to: made from `job` and `rules`
      when the first `seen` entries of the history had been verified. */
  datatype Deed = Deed(verified: Verified, job: Job, rules: seq<PlacementRule>, seen: nat)

  function History(deeds: seq<Deed>): (history: seq<Verified>)
    ensures |history| == |deeds|
    ensures forall n :: 0 <= n < |deeds| ==> history[n] == deeds[n].verified
  {
    seq(|deeds|, n requires 0 <= n < |deeds| => deeds[n].verified)
  }

  /** The planner was given exactly the ownership rows of that time. */
  ghost predicate GivenRows(job: Job, rows: seq<Ownership>) {
    job.Valid() && job.ownerships == rows
  }

  /** Deed n carries out an action of the plan its profile made earlier; the item of a
      NOOP is the one that was planned. */
  ghost predicate CarriesOut(deeds: seq<Deed>, n: nat)
    requires n < |deeds|
  {
    var d := deeds[n];
    && d.seen <= n && GivenRows(d.job, Rows(History(deeds)[..d.seen]))
    && d.job.profileId == d.verified.profileId && d.verified.body in Planned(d.job, d.rules)
    && (d.verified.body.Noop? ==> d.verified.itemId == d.verified.body.itemId)
  }

  ghost predicate Lawful(deeds: seq<Deed>) {
    forall n :: 0 <= n < |deeds| ==> CarriesOut(deeds, n)
  }

  lemma LawfulIsFounded(deeds: seq<Deed>)
    requires Lawful(deeds)
    ensures Founded(History(deeds))
  {
    var history := History(deeds);
    forall n | 0 <= n < |history| && history[n].body.Noop? && history[n].body.alreadyOwned
      ensures exists t: nat :: t <= n && HadRow(history, t, history[n].profileId, history[n].itemId)
    {
      var d := deeds[n];
      assert CarriesOut(deeds, n);
      NoopsAreTrue(d.job, d.rules, d.verified.body);
      OwnerIsRow(d.job.ownerships, d.verified.body.itemId);
      assert HadRow(history, d.seen, history[n].profileId, history[n].itemId);
    }
  }

  /** After any history of runs, every ownership row is for an item on which its profile
      has verified an INSERT or REPLACE. */
  lemma RowsAreEarned(deeds: seq<Deed>, o: Ownership)
    requires Lawful(deeds) && o in Rows(History(deeds))
    ensures Wrote(History(deeds), o.profileId, o.agendaItemId)
  {
    LawfulIsFounded(deeds);
    RowsComeFromWrites(History(deeds), o);
  }

  /** After any history of runs, whatever plan is made next: a DELETE is planned only for
      an item on which the same profile has verified an INSERT or REPLACE, and which
      still shows exactly the song and arrangement of the profile's row. */
  lemma DeletesAreEarned(deeds: seq<Deed>, job: Job, rules: seq<PlacementRule>, i: nat)
    requires Lawful(deeds) && Sound(job) && GivenRows(job, Rows(History(deeds)))
    requires i < |Planned(job, rules)| && Planned(job, rules)[i].DeleteOwnedItem?
    ensures Wrote(History(deeds), job.profileId, Planned(job, rules)[i].itemId)
    ensures exists o, k :: o in Rows(History(deeds)) && 0 <= k < |job.items|
              && o.profileId == job.profileId && o.agendaItemId == job.items[k].id == Planned(job, rules)[i].itemId
              && o.songId.Some? && o.arrangementId.Some?
              && job.items[k].Shows(o.songId.value, o.arrangementId.value)
  {
    DeletesAreAuthorized(job, rules, i);
    var o, k :| o in job.ownerships && 0 <= k < |job.items|
                && o.profileId == job.profileId && o.agendaItemId == Planned(job, rules)[i].itemId
                && job.items[k].id == o.agendaItemId
                && o.songId.Some? && o.arrangementId.Some?
                && job.items[k].Shows(o.songId.value, o.arrangementId.value);
    RowsAreEarned(deeds, o);
  }

  /** The planner's demand on the rows it is given is always met. */
  lemma RowsAreDistinct(deeds: seq<Deed>)
    ensures DistinctOwners(Rows(History(deeds)))
  {
    OneOwnerEach(History(deeds));
  }
}
