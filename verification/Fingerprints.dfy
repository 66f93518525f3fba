/** The value that decides whether a source event counts as unchanged
    (fingerprints.py), before it is hashed, and why it is enough: it determines the
    event's plan. */
module Fingerprints {
  import opened Prelude
  import opened Agendas
  import opened Sorting
  import opened Placements
  import opened Assembly
  import SongMatching
  import EventMatching

  datatype Metadata = Metadata(name: string, artist: string, ccli: string)
  datatype SongImage = SongImage(id: Id, metadata: seq<Metadata>)

  /** Canonical JSON of song metadata; different metadata have different texts. */
  type Canonical = Metadata -> string

  ghost predicate Injective(json: Canonical) {
    forall a, b :: json(a) == json(b) ==> a == b
  }

  function MetadataOf(song: SongMatching.SourceSong, norm: SongMatching.Norm): Metadata {
    Metadata(norm.text(song.name), norm.text(song.artist), norm.ccli(song.ccli))
  }

  function WithId(songs: seq<SongMatching.SourceSong>, id: Id): seq<SongMatching.SourceSong> {
    Filter(songs, (s: SongMatching.SourceSong) => s.id == id)
  }

  function Described(songs: seq<SongMatching.SourceSong>, norm: SongMatching.Norm): (r: seq<Metadata>)
    ensures |r| == |songs|
    ensures forall i :: 0 <= i < |songs| ==> r[i] == MetadataOf(songs[i], norm)
  {
    seq(|songs|, i requires 0 <= i < |songs| => MetadataOf(songs[i], norm))
  }

  function ByJson(json: Canonical): (Metadata, Metadata) -> bool {
    (a, b) => StringLeq(json(a), json(b))
  }

  function ImageOf(id: Id, songs: seq<SongMatching.SourceSong>, norm: SongMatching.Norm, json: Canonical): SongImage {
    SongImage(id, Sort(Described(WithId(songs, id), norm), ByJson(json)))
  }

  /** The songs of an event in order, each with everything the catalogue says of it. */
  function SourceImage(songIds: seq<Id>, songs: seq<SongMatching.SourceSong>, norm: SongMatching.Norm, json: Canonical): (r: seq<SongImage>)
    ensures |r| == |songIds|
    ensures forall i :: 0 <= i < |songIds| ==> r[i] == ImageOf(songIds[i], songs, norm, json)
  {
    seq(|songIds|, i requires 0 <= i < |songIds| => ImageOf(songIds[i], songs, norm, json))
  }

  lemma WithIdNext(songs: seq<SongMatching.SourceSong>, song: SongMatching.SourceSong, id: Id)
    ensures WithId(songs + [song], id) == WithId(songs, id) + (if song.id == id then [song] else [])
  {
    FilterConcat(songs, [song], (s: SongMatching.SourceSong) => s.id == id);
  }

  /** `source_event_fingerprint`, up to the hash. */
  method SourcePreimage(songIds: seq<Id>, songs: seq<SongMatching.SourceSong>, norm: SongMatching.Norm, json: Canonical)
    returns (ordered: seq<SongImage>)
    ensures ordered == SourceImage(songIds, songs, norm, json)
  {
    var candidates: map<Id, seq<SongMatching.SourceSong>> := map[];
    for k := 0 to |songs|
      invariant forall id: Id :: SongMatching.Bucket(candidates, id) == WithId(songs[..k], id)
    {
      var song := songs[k];
      candidates := candidates[song.id := SongMatching.Bucket(candidates, song.id) + [song]];
      assert songs[..k + 1] == songs[..k] + [song];
      forall id: Id ensures SongMatching.Bucket(candidates, id) == WithId(songs[..k + 1], id) {
        WithIdNext(songs[..k], song, id);
      }
    }
    assert songs[..|songs|] == songs;
    ordered := [];
    for k := 0 to |songIds|
      invariant ordered == SourceImage(songIds, songs, norm, json)[..k]
    {
      var metadata := Sort(Described(SongMatching.Bucket(candidates, songIds[k]), norm), ByJson(json));
      ordered := ordered + [SongImage(songIds[k], metadata)];
    }
  }

  // What the image does not depend on.

  lemma DescribedConcat(a: seq<SongMatching.SourceSong>, b: seq<SongMatching.SourceSong>, norm: SongMatching.Norm)
    ensures Described(a + b, norm) == Described(a, norm) + Described(b, norm)
  {
  }

  lemma DescribedOneOut(a: seq<SongMatching.SourceSong>, x: SongMatching.SourceSong, b: seq<SongMatching.SourceSong>,
                        norm: SongMatching.Norm)
    ensures multiset(Described(a + [x] + b, norm)) == multiset(Described(a + b, norm)) + multiset{MetadataOf(x, norm)}
  {
    DescribedConcat(a + [x], b, norm);
    DescribedConcat(a, [x], norm);
    DescribedConcat(a, b, norm);
    assert Described([x], norm) == [MetadataOf(x, norm)];
  }

  lemma {:induction false} DescribedPermutes(a: seq<SongMatching.SourceSong>, b: seq<SongMatching.SourceSong>, norm: SongMatching.Norm)
    requires multiset(a) == multiset(b)
    ensures multiset(Described(a, norm)) == multiset(Described(b, norm))
    decreases |a|
  {
    if a == [] {
      assert |b| == |multiset(b)| == 0;
    } else {
      assert a == [] + [a[0]] + a[1..] && [] + a[1..] == a[1..];
      assert a[0] in multiset(b);
      var front, back := SongMatching.TakeOut(b, a[0]);
      assert multiset(a[1..]) == multiset(a) - multiset{a[0]} == multiset(front + back);
      DescribedPermutes(a[1..], front + back, norm);
      DescribedOneOut([], a[0], a[1..], norm);
      DescribedOneOut(front, a[0], back, norm);
    }
  }

  lemma JsonOrder(json: Canonical)
    requires Injective(json)
    ensures Preorder(ByJson(json))
    ensures forall s: seq<Metadata> :: NoTies(s, ByJson(json))
  {
    StringOrder();
  }

  /** The order of the catalogue is irrelevant. */
  lemma ImageIgnoresOrder(songIds: seq<Id>, songs: seq<SongMatching.SourceSong>, shuffled: seq<SongMatching.SourceSong>,
                          norm: SongMatching.Norm, json: Canonical)
    requires Injective(json) && multiset(songs) == multiset(shuffled)
    ensures SourceImage(songIds, songs, norm, json) == SourceImage(songIds, shuffled, norm, json)
  {
    JsonOrder(json);
    forall i | 0 <= i < |songIds| ensures ImageOf(songIds[i], songs, norm, json) == ImageOf(songIds[i], shuffled, norm, json) {
      SongMatching.FilterPermutes(songs, shuffled, (s: SongMatching.SourceSong) => s.id == songIds[i]);
      DescribedPermutes(WithId(songs, songIds[i]), WithId(shuffled, songIds[i]), norm);
      SortIgnoresOrder(Described(WithId(songs, songIds[i]), norm), Described(WithId(shuffled, songIds[i]), norm), ByJson(json));
    }
  }

  /** So are songs the event does not use. */
  lemma ImageIgnoresOthers(songIds: seq<Id>, a: seq<SongMatching.SourceSong>, other: SongMatching.SourceSong,
                           b: seq<SongMatching.SourceSong>, norm: SongMatching.Norm, json: Canonical)
    requires other.id !in songIds
    ensures SourceImage(songIds, a + [other] + b, norm, json) == SourceImage(songIds, a + b, norm, json)
  {
    forall i | 0 <= i < |songIds| ensures WithId(a + [other] + b, songIds[i]) == WithId(a + b, songIds[i]) {
      WithIdNext(a, other, songIds[i]);
      FilterConcat(a + [other], b, (s: SongMatching.SourceSong) => s.id == songIds[i]);
      FilterConcat(a, b, (s: SongMatching.SourceSong) => s.id == songIds[i]);
    }
  }

  ghost predicate ReadsAlike(a: seq<SongMatching.SourceSong>, b: seq<SongMatching.SourceSong>, norm: SongMatching.Norm) {
    |a| == |b| && forall k :: 0 <= k < |a| ==>
      && a[k].id == b[k].id && norm.text(a[k].name) == norm.text(b[k].name)
      && norm.text(a[k].artist) == norm.text(b[k].artist) && norm.ccli(a[k].ccli) == norm.ccli(b[k].ccli)
  }

  lemma {:induction false} DescribedAlike(a: seq<SongMatching.SourceSong>, b: seq<SongMatching.SourceSong>, id: Id, norm: SongMatching.Norm)
    requires ReadsAlike(a, b, norm)
    ensures Described(WithId(a, id), norm) == Described(WithId(b, id), norm)
  {
    if a != [] {
      var n := |a| - 1;
      assert a == a[..n] + [a[n]] && b == b[..n] + [b[n]];
      DescribedAlike(a[..n], b[..n], id, norm);
      WithIdNext(a[..n], a[n], id);
      WithIdNext(b[..n], b[n], id);
      DescribedConcat(WithId(a[..n], id), if a[n].id == id then [a[n]] else [], norm);
      DescribedConcat(WithId(b[..n], id), if b[n].id == id then [b[n]] else [], norm);
      assert Described([a[n]], norm) == Described([b[n]], norm);
    }
  }

  /** So are changes that normalization hides, such as case and spacing. */
  lemma ImageReadsNormalized(songIds: seq<Id>, a: seq<SongMatching.SourceSong>, b: seq<SongMatching.SourceSong>,
                             norm: SongMatching.Norm, json: Canonical)
    requires ReadsAlike(a, b, norm)
    ensures SourceImage(songIds, a, norm, json) == SourceImage(songIds, b, norm, json)
  {
    forall i | 0 <= i < |songIds| ensures ImageOf(songIds[i], a, norm, json) == ImageOf(songIds[i], b, norm, json) {
      DescribedAlike(a, b, songIds[i], norm);
    }
  }

  // What it determines.

  /** The same need, but for the raw name, author and CCLI of a song to create. */
  predicate Alike(a: SongNeed, b: SongNeed) {
    match (a, b)
    case (Known(x), Known(y)) => x == y
    case (Problem(x), Problem(y)) => x == y
    case (Prepare(x, v), Prepare(y, w)) =>
      x == y && (v == w || (v.CreateSong? && w.CreateSong? && w == v.(name := w.name, author := w.author, ccli := w.ccli)))
    case _ => false
  }

  /** Everything the planner reads besides the source catalogue: the settings that the
      config fingerprint covers, and the target side. */
  ghost predicate SameBesidesSource(a: Inputs, b: Inputs) {
    b == a.(sourceSongs := b.sourceSongs)
  }

  lemma ImageFixesSize(id: Id, a: seq<SongMatching.SourceSong>, b: seq<SongMatching.SourceSong>, norm: SongMatching.Norm, json: Canonical)
    requires ImageOf(id, a, norm, json) == ImageOf(id, b, norm, json)
    ensures |WithId(a, id)| == |WithId(b, id)|
    ensures |WithId(a, id)| == 1 ==> MetadataOf(WithId(a, id)[0], norm) == MetadataOf(WithId(b, id)[0], norm)
  {
    var x, y := Described(WithId(a, id), norm), Described(WithId(b, id), norm);
    SortPermutes(x, ByJson(json));
    SortPermutes(y, ByJson(json));
    assert |x| == |multiset(x)| == |multiset(y)| == |y|;
    if |x| == 1 {
      assert y[0] in multiset(x);
    }
  }

  /** A scan looks at normalized metadata only. */
  lemma ScanReadsMetadata(s: SongMatching.SourceSong, t: SongMatching.SourceSong, songs: seq<SongMatching.TargetSong>, norm: SongMatching.Norm)
    requires MetadataOf(s, norm) == MetadataOf(t, norm)
    ensures SongMatching.Scan(s, songs, norm) == SongMatching.Scan(t, songs, norm)
  {
  }

  lemma NeedsAreAlike(a: Inputs, b: Inputs, id: Id, json: Canonical)
    requires SameBesidesSource(a, b)
    requires ImageOf(id, a.sourceSongs, a.norm, json) == ImageOf(id, b.sourceSongs, a.norm, json)
    ensures Alike(NeedOf(a, id), NeedOf(b, id))
  {
    ImageFixesSize(id, a.sourceSongs, b.sourceSongs, a.norm, json);
    if |WithId(a.sourceSongs, id)| == 1 {
      ScanReadsMetadata(WithId(a.sourceSongs, id)[0], WithId(b.sourceSongs, id)[0], a.targetSongs, a.norm);
    }
  }

  // A plan reads the resources of the event's own songs only.

  ghost predicate SameSongs(a: Job, b: Job) {
    && b == a.(resources := b.resources)
    && forall i :: 0 <= i < |a.songIds| ==>
         a.songIds[i] in a.resources && a.songIds[i] in b.resources && a.resources[a.songIds[i]] == b.resources[a.songIds[i]]
  }

  lemma {:induction false} SongsPlannedAlike(a: Job, b: Job, rule: PlacementRule, lo: nat, k: nat, p: Planning, c: Cursor)
    requires SameSongs(a, b) && lo <= k <= |a.songIds|
    ensures PlaceSongs(a, rule, lo, k, p, c) == PlaceSongs(b, rule, lo, k, p, c)
  {
    if k > lo {
      SongsPlannedAlike(a, b, rule, lo, k - 1, p, c);
      var (p1, c1) := PlaceSongs(a, rule, lo, k - 1, p, c);
      SongPlannedAlike(a, b, rule, k - 1, p1, c1);
    }
  }

  lemma SongPlannedAlike(a: Job, b: Job, rule: PlacementRule, i: nat, p: Planning, c: Cursor)
    requires SameSongs(a, b) && i < |a.songIds|
    ensures PlaceSong(a, rule, i, p, c) == PlaceSong(b, rule, i, p, c)
  {
  }

  lemma RulePlannedAlike(a: Job, b: Job, rule: PlacementRule, p: Planning)
    requires SameSongs(a, b)
    ensures PlaceRule(a, rule, p) == PlaceRule(b, rule, p)
  {
    if p.used * Indexes(rule, |a.songIds|) == {} && Matching(rule.anchor, a.items, a.normalize) != [] {
      forall q: Planning, c: Cursor
        ensures PlaceSongs(a, rule, SliceStart(rule, |a.songIds|), SliceEnd(rule, |a.songIds|), q, c)
                == PlaceSongs(b, rule, SliceStart(rule, |a.songIds|), SliceEnd(rule, |a.songIds|), q, c)
      {
        SongsPlannedAlike(a, b, rule, SliceStart(rule, |a.songIds|), SliceEnd(rule, |a.songIds|), q, c);
      }
    }
  }

  lemma {:induction false} RulesPlannedAlike(a: Job, b: Job, rules: seq<PlacementRule>)
    requires SameSongs(a, b)
    ensures PlaceRules(a, rules) == PlaceRules(b, rules)
  {
    if rules != [] {
      RulesPlannedAlike(a, b, rules[..|rules| - 1]);
      RulePlannedAlike(a, b, rules[|rules| - 1], PlaceRules(a, rules[..|rules| - 1]));
    }
  }

  lemma {:induction false} CleanedUpAlike(a: Job, b: Job, rows: seq<Ownership>, p: Planning)
    requires SameSongs(a, b)
    ensures CleanUpAll(a, rows, p) == CleanUpAll(b, rows, p)
  {
    if rows != [] {
      CleanedUpAlike(a, b, rows[..|rows| - 1], p);
    }
  }

  lemma DraftedAlike(a: Job, b: Job, rules: seq<PlacementRule>)
    requires SameSongs(a, b)
    ensures Drafted(a, rules) == Drafted(b, rules)
  {
    RulesPlannedAlike(a, b, rules);
    CleanedUpAlike(a, b, Sort(a.ownerships, OwnershipLeq), PlaceRules(a, rules));
  }

  lemma {:induction false} ProblemsAlike(ids: seq<Id>, a: map<Id, SongIssue>, b: map<Id, SongIssue>)
    requires forall i :: 0 <= i < |ids| ==> (ids[i] in a <==> ids[i] in b) && (ids[i] in a ==> a[ids[i]] == b[ids[i]])
    ensures SongProblems(ids, a) == SongProblems(ids, b)
  {
    if ids != [] {
      ProblemsAlike(ids[..|ids| - 1], a, b);
    }
  }

  /** The key of the cache covers what its consumer reads.  If an event has the same
      image in two source catalogues, then -- with the same settings, target, agenda
      and ownership rows -- its plan is the same: status, issues and agenda actions.
      `here` and `there` are the songs of the two runs, of which the event uses some. */
  lemma UnchangedMeansSamePlan(a: Inputs, b: Inputs, m: MatchedEvent, here: set<Id>, there: set<Id>, first: nat, json: Canonical)
    requires SameBesidesSource(a, b)
    requires SourceImage(m.songIds, a.sourceSongs, a.norm, json) == SourceImage(m.songIds, b.sourceSongs, a.norm, json)
    requires forall i :: 0 <= i < |m.songIds| ==> m.songIds[i] in here && m.songIds[i] in there
    ensures Resourced(m, ResourceMap(a, here), IssueMap(a, here)) && Resourced(m, ResourceMap(b, there), IssueMap(b, there))
    ensures PlanOf(a, m, ResourceMap(a, here), IssueMap(a, here), first) == PlanOf(b, m, ResourceMap(b, there), IssueMap(b, there), first)
  {
    hide NeedOf, SongProblems, Drafted, Once, SourceImage, HasErrors;
    NeedsOfEvent(a, b, m, json);
    ProblemsOfEvent(a, b, m, here, there);
    if Plannable(a, m, IssueMap(a, here)) {
      EventIsResourced(m, ResourceMap(a, here), IssueMap(a, here));
      EventIsResourced(m, ResourceMap(b, there), IssueMap(b, there));
      DraftedAlike(JobOf(a, m, ResourceMap(a, here)), JobOf(b, m, ResourceMap(b, there)), a.rules);
    }
  }

  // The settings that enter the other fingerprint.

  datatype ProfileConfig = ProfileConfig(
    id: Id, revision: nat, sourceZone: string, targetZone: string, sourceChangesOnly: bool, exactTime: bool,
    selectors: seq<EventMatching.Selector>, placements: seq<PlacementRule>, autoCreate: bool, category: Option<int>,
    arrangementName: string, defaults: map<string, string>, lookahead: nat)

  datatype ConfigImage = ConfigImage(
    source: Id, target: Id, sourceZone: string, targetZone: string, exactTime: bool,
    selectors: seq<EventMatching.Selector>, placements: seq<PlacementRule>, autoCreate: bool, category: Option<int>,
    arrangementName: string, defaults: map<string, string>)

  /** `sync_config_fingerprint`, up to the hash. */
  function ConfigPreimage(p: ProfileConfig, source: Id, target: Id): ConfigImage {
    ConfigImage(source, target, p.sourceZone, p.targetZone, p.exactTime, p.selectors, p.placements, p.autoCreate,
                p.category, p.arrangementName, p.defaults)
  }

  function TitleOf(defaults: map<string, string>): string {
    if "title" in defaults then defaults["title"] else ""
  }

  /** The planner's inputs with the settings of profile `p`. */
  ghost predicate Configured(inputs: Inputs, p: ProfileConfig) {
    && inputs.profileId == p.id && inputs.rules == p.placements && inputs.title == TitleOf(p.defaults)
    && inputs.autoCreate == p.autoCreate && inputs.category == p.category && inputs.arrangementName == p.arrangementName
  }

  /** The same target side: catalogue, arrangements, agendas and ownership rows. */
  ghost predicate SameTarget(a: Inputs, b: Inputs) {
    && a.targetSongs == b.targetSongs && a.arrangements == b.arrangements && a.norm == b.norm
    && a.agendas == b.agendas && a.ownerships == b.ownerships
  }

  /** The two fingerprints of a checkpoint, kept per profile, cover everything that can
      change the plan of a matched event: whatever else was edited in the profile or in
      the source catalogue, the plan is the one made before, and so are the settings
      that events are matched with. */
  lemma CheckpointCoversPlan(p: ProfileConfig, q: ProfileConfig, a: Inputs, b: Inputs, m: MatchedEvent, source: Id, target: Id,
                             here: set<Id>, there: set<Id>, first: nat, json: Canonical)
    requires p.id == q.id && ConfigPreimage(p, source, target) == ConfigPreimage(q, source, target)
    requires Configured(a, p) && Configured(b, q) && SameTarget(a, b)
    requires SourceImage(m.songIds, a.sourceSongs, a.norm, json) == SourceImage(m.songIds, b.sourceSongs, a.norm, json)
    requires forall i :: 0 <= i < |m.songIds| ==> m.songIds[i] in here && m.songIds[i] in there
    ensures Resourced(m, ResourceMap(a, here), IssueMap(a, here)) && Resourced(m, ResourceMap(b, there), IssueMap(b, there))
    ensures PlanOf(a, m, ResourceMap(a, here), IssueMap(a, here), first) == PlanOf(b, m, ResourceMap(b, there), IssueMap(b, there), first)
    ensures EventMatching.Profile(p.exactTime, p.selectors) == EventMatching.Profile(q.exactTime, q.selectors)
    ensures (p.sourceZone, p.targetZone) == (q.sourceZone, q.targetZone)
  {
    hide PlanOf, Resourced, SourceImage, ResourceMap, IssueMap;
    UnchangedMeansSamePlan(a, b, m, here, there, first, json);
  }

  lemma NeedsOfEvent(a: Inputs, b: Inputs, m: MatchedEvent, json: Canonical)
    requires SameBesidesSource(a, b)
    requires SourceImage(m.songIds, a.sourceSongs, a.norm, json) == SourceImage(m.songIds, b.sourceSongs, a.norm, json)
    ensures forall i :: 0 <= i < |m.songIds| ==> Alike(NeedOf(a, m.songIds[i]), NeedOf(b, m.songIds[i]))
  {
    forall i | 0 <= i < |m.songIds| ensures Alike(NeedOf(a, m.songIds[i]), NeedOf(b, m.songIds[i])) {
      assert SourceImage(m.songIds, a.sourceSongs, a.norm, json)[i] == SourceImage(m.songIds, b.sourceSongs, a.norm, json)[i];
      NeedsAreAlike(a, b, m.songIds[i], json);
    }
  }

  lemma ProblemsOfEvent(a: Inputs, b: Inputs, m: MatchedEvent, here: set<Id>, there: set<Id>)
    requires forall i :: 0 <= i < |m.songIds| ==> Alike(NeedOf(a, m.songIds[i]), NeedOf(b, m.songIds[i]))
    requires forall i :: 0 <= i < |m.songIds| ==> m.songIds[i] in here && m.songIds[i] in there
    ensures SongProblems(Once(m.songIds), IssueMap(a, here)) == SongProblems(Once(m.songIds), IssueMap(b, there))
  {
    forall i | 0 <= i < |Once(m.songIds)| ensures Once(m.songIds)[i] in m.songIds {
      OnceMember(m.songIds, Once(m.songIds)[i]);
    }
    ProblemsAlike(Once(m.songIds), IssueMap(a, here), IssueMap(b, there));
  }
}
