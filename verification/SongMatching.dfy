/** Song lookup (matching.py, SongIndex): an index by CCLI number and by name and
    author, against a plain scan of the catalogue. */
module SongMatching {
  import opened Prelude

  type Id = string

  datatype SourceSong = SourceSong(id: Id, name: string, artist: string, ccli: Option<string>)
  datatype TargetSong = TargetSong(id: Id, name: string, author: string, ccli: Option<string>)

  /** normalize_text and normalize_ccli; the latter gives "" for a missing number. */
  datatype Norm = Norm(text: string -> string, ccli: Option<string> -> string)

  datatype Strategy = ByCcli | ByNameAndAuthor
  datatype SongMatch = Found(target: TargetSong, strategy: Strategy) | Ambiguous(strategy: Strategy) | NoMatch

  // The scan.

  function SameCcli(songs: seq<TargetSong>, ccli: string, norm: Norm): seq<TargetSong> {
    Filter(songs, (t: TargetSong) => norm.ccli(t.ccli) == ccli)
  }

  function SameName(songs: seq<TargetSong>, name: string, author: string, norm: Norm): seq<TargetSong> {
    Filter(songs, (t: TargetSong) => norm.text(t.name) == name && norm.text(t.author) == author)
  }

  /** No CCLI number of its own, or the same one. */
  function Compatible(songs: seq<TargetSong>, ccli: string, norm: Norm): seq<TargetSong> {
    if ccli == "" then songs
    else Filter(songs, (t: TargetSong) => norm.ccli(t.ccli) == "" || norm.ccli(t.ccli) == ccli)
  }

  function Unique(matches: seq<TargetSong>, strategy: Strategy): SongMatch {
    if |matches| == 1 then Found(matches[0], strategy)
    else if |matches| > 1 then Ambiguous(strategy)
    else NoMatch
  }

  function Scan(source: SourceSong, songs: seq<TargetSong>, norm: Norm): SongMatch {
    var ccli := norm.ccli(source.ccli);
    var byCcli := if ccli == "" then [] else SameCcli(songs, ccli, norm);
    if byCcli != [] then Unique(byCcli, ByCcli)
    else
      Unique(Compatible(SameName(songs, norm.text(source.name), norm.text(source.artist), norm), ccli, norm),
             ByNameAndAuthor)
  }

  lemma SameCcliNext(songs: seq<TargetSong>, song: TargetSong, ccli: string, norm: Norm)
    ensures SameCcli(songs + [song], ccli, norm)
            == SameCcli(songs, ccli, norm) + (if norm.ccli(song.ccli) == ccli then [song] else [])
  {
    FilterConcat(songs, [song], (t: TargetSong) => norm.ccli(t.ccli) == ccli);
  }

  lemma SameNameNext(songs: seq<TargetSong>, song: TargetSong, name: string, author: string, norm: Norm)
    ensures SameName(songs + [song], name, author, norm)
            == SameName(songs, name, author, norm)
               + (if norm.text(song.name) == name && norm.text(song.author) == author then [song] else [])
  {
    FilterConcat(songs, [song], (t: TargetSong) => norm.text(t.name) == name && norm.text(t.author) == author);
  }

  lemma NothingIndexed(norm: Norm)
    ensures forall ccli :: SameCcli([], ccli, norm) == []
    ensures forall name, author :: SameName([], name, author, norm) == []
  {
  }

  // The index.

  class SongIndex {
    const norm: Norm
    var byCcli: map<string, seq<TargetSong>>
    var byName: map<(string, string), seq<TargetSong>>

    /** The buckets hold the songs of each key, in catalogue order. */
    ghost predicate Indexes(songs: seq<TargetSong>)
      reads this
    {
      && (forall c: string :: c != "" ==> Bucket(byCcli, c) == SameCcli(songs, c, norm))
      && (forall n: string, a: string :: Bucket(byName, (n, a)) == SameName(songs, n, a, norm))
    }

    constructor (songs: seq<TargetSong>, n: Norm)
      ensures norm == n && Indexes(songs)
    {
      hide SameCcli, SameName;
      norm := n;
      byCcli, byName := map[], map[];
      new;
      NothingIndexed(norm);
      var k := 0;
      while k < |songs|
        invariant 0 <= k <= |songs| && norm == n
        invariant Indexes(songs[..k])
      {
        var song := songs[k];
        var ccli := norm.ccli(song.ccli);
        var name := (norm.text(song.name), norm.text(song.author));
        ghost var before := songs[..k];
        if ccli != "" {
          byCcli := byCcli[ccli := Bucket(byCcli, ccli) + [song]];
        }
        byName := byName[name := Bucket(byName, name) + [song]];
        assert songs[..k + 1] == before + [song];
        forall c: string | c != "" ensures Bucket(byCcli, c) == SameCcli(songs[..k + 1], c, norm) {
          SameCcliNext(before, song, c, norm);
        }
        forall m: string, a: string ensures Bucket(byName, (m, a)) == SameName(songs[..k + 1], m, a, norm) {
          SameNameNext(before, song, m, a, norm);
        }
        k := k + 1;
      }
      assert songs[..k] == songs;
    }

    method Match(source: SourceSong, ghost songs: seq<TargetSong>) returns (r: SongMatch)
      requires Indexes(songs)
      ensures r == Scan(source, songs, norm)
    {
      var ccli := norm.ccli(source.ccli);
      if ccli != "" {
        var same := Bucket(byCcli, ccli);
        if |same| == 1 {
          return Found(same[0], ByCcli);
        }
        if |same| > 1 {
          return Ambiguous(ByCcli);
        }
      }
      var named := Bucket(byName, (norm.text(source.name), norm.text(source.artist)));
      if ccli != "" {
        named := Filter(named, (t: TargetSong) => norm.ccli(t.ccli) == "" || norm.ccli(t.ccli) == ccli);
      }
      r := Unique(named, ByNameAndAuthor);
    }
  }

  function Bucket<K, V>(m: map<K, seq<V>>, key: K): seq<V> {
    if key in m then m[key] else []
  }

  // What a match means.

  lemma FilterOneOut<T(!new)>(a: seq<T>, x: T, b: seq<T>, p: T -> bool)
    ensures multiset(Filter(a + [x] + b, p)) == multiset(Filter(a + b, p)) + (if p(x) then multiset{x} else multiset{})
  {
    FilterConcat(a + [x], b, p);
    FilterConcat(a, [x], p);
    FilterConcat(a, b, p);
    assert Filter([x], p) == if p(x) then [x] else [];
  }

  lemma TakeOut<T>(t: seq<T>, x: T) returns (a: seq<T>, b: seq<T>)
    requires x in t
    ensures t == a + [x] + b && multiset(a + b) == multiset(t) - multiset{x}
  {
    var k :| 0 <= k < |t| && t[k] == x;
    a, b := t[..k], t[k + 1..];
    assert t == a + [x] + b;
    assert multiset(t) == multiset(a) + multiset{x} + multiset(b);
  }

  lemma {:induction false} FilterPermutes<T(!new)>(s: seq<T>, t: seq<T>, p: T -> bool)
    requires multiset(s) == multiset(t)
    ensures multiset(Filter(s, p)) == multiset(Filter(t, p))
    decreases |s|
  {
    if s == [] {
      assert |t| == |multiset(t)| == 0;
    } else {
      var x := s[0];
      assert x in multiset(t);
      var a, b := TakeOut(t, x);
      assert s == [x] + s[1..];
      FilterPermutes(s[1..], a + b, p);
      FilterOneOut(a, x, b, p);
    }
  }

  lemma UniquePermutes(a: seq<TargetSong>, b: seq<TargetSong>, strategy: Strategy)
    requires multiset(a) == multiset(b)
    ensures Unique(a, strategy) == Unique(b, strategy)
  {
    assert |a| == |multiset(a)| == |multiset(b)| == |b|;
    if |a| == 1 {
      assert b[0] in multiset(a);
    }
  }

  /** The order of the catalogue does not matter. */
  lemma ScanIgnoresOrder(source: SourceSong, songs: seq<TargetSong>, shuffled: seq<TargetSong>, norm: Norm)
    requires multiset(songs) == multiset(shuffled)
    ensures Scan(source, songs, norm) == Scan(source, shuffled, norm)
  {
    var ccli, name, author := norm.ccli(source.ccli), norm.text(source.name), norm.text(source.artist);
    var named := (t: TargetSong) => norm.text(t.name) == name && norm.text(t.author) == author;
    FilterPermutes(songs, shuffled, (t: TargetSong) => norm.ccli(t.ccli) == ccli);
    FilterPermutes(songs, shuffled, named);
    FilterPermutes(SameName(songs, name, author, norm), SameName(shuffled, name, author, norm),
                   (t: TargetSong) => norm.ccli(t.ccli) == "" || norm.ccli(t.ccli) == ccli);
    var a, b := SameCcli(songs, ccli, norm), SameCcli(shuffled, ccli, norm);
    assert |a| == |multiset(a)| == |multiset(b)| == |b|;
    UniquePermutes(a, b, ByCcli);
    UniquePermutes(Compatible(SameName(songs, name, author, norm), ccli, norm),
                   Compatible(SameName(shuffled, name, author, norm), ccli, norm), ByNameAndAuthor);
  }

  /** A song found is in the catalogue, and never one with another CCLI number. */
  lemma FoundIsCompatible(source: SourceSong, songs: seq<TargetSong>, norm: Norm)
    requires Scan(source, songs, norm).Found?
    ensures var r := Scan(source, songs, norm);
            && r.target in songs
            && (norm.ccli(source.ccli) == "" || norm.ccli(r.target.ccli) == ""
                || norm.ccli(source.ccli) == norm.ccli(r.target.ccli))
            && (r.strategy.ByCcli? ==> norm.ccli(source.ccli) == norm.ccli(r.target.ccli) != "")
            && (r.strategy.ByNameAndAuthor? ==>
                  norm.text(source.name) == norm.text(r.target.name)
                  && norm.text(source.artist) == norm.text(r.target.author))
  {
    var ccli, t := norm.ccli(source.ccli), Scan(source, songs, norm).target;
    var named := SameName(songs, norm.text(source.name), norm.text(source.artist), norm);
    FilterMember(songs, (x: TargetSong) => norm.ccli(x.ccli) == ccli, t);
    FilterMember(songs, (x: TargetSong) => norm.text(x.name) == norm.text(source.name)
                                           && norm.text(x.author) == norm.text(source.artist), t);
    FilterMember(named, (x: TargetSong) => norm.ccli(x.ccli) == "" || norm.ccli(x.ccli) == ccli, t);
  }

  /** The only song with the CCLI number wins, whatever the names are. */
  lemma CcliDecides(source: SourceSong, songs: seq<TargetSong>, norm: Norm, t: TargetSong)
    requires norm.ccli(source.ccli) != "" && SameCcli(songs, norm.ccli(source.ccli), norm) == [t]
    ensures Scan(source, songs, norm) == Found(t, ByCcli)
  {
  }

  // The decision, told by counting.

  predicate HasNumber(source: SourceSong, t: TargetSong, norm: Norm) {
    norm.ccli(source.ccli) != "" && norm.ccli(t.ccli) == norm.ccli(source.ccli)
  }

  /** The same name and author, and no conflicting number. */
  predicate HasName(source: SourceSong, t: TargetSong, norm: Norm) {
    && norm.text(t.name) == norm.text(source.name) && norm.text(t.author) == norm.text(source.artist)
    && (norm.ccli(source.ccli) == "" || norm.ccli(t.ccli) == "" || norm.ccli(t.ccli) == norm.ccli(source.ccli))
  }

  /** One song of the catalogue satisfies p, or several, or none. */
  ghost predicate Counted(songs: seq<TargetSong>, p: TargetSong -> bool, strategy: Strategy, r: SongMatch) {
    match r
    case Found(t, how) => how == strategy && exists k :: 0 <= k < |songs| && songs[k] == t && SoleAt(songs, p, k)
    case Ambiguous(how) => how == strategy && exists i, j :: 0 <= i < j < |songs| && p(songs[i]) && p(songs[j])
    case NoMatch => forall k :: 0 <= k < |songs| ==> !p(songs[k])
  }

  ghost predicate SoleAt(songs: seq<TargetSong>, p: TargetSong -> bool, k: nat)
    requires k < |songs|
  {
    p(songs[k]) && forall j :: 0 <= j < |songs| && j != k ==> !p(songs[j])
  }

  lemma UniqueCounts(songs: seq<TargetSong>, p: TargetSong -> bool, strategy: Strategy)
    ensures Counted(songs, p, strategy, Unique(Filter(songs, p), strategy))
  {
    if k :| 0 <= k < |songs| && SoleAt(songs, p, k) {
      FilterSole(songs, p, k);
    } else if i :| 0 <= i < |songs| && p(songs[i]) {
      assert !SoleAt(songs, p, i);
      var j :| 0 <= j < |songs| && j != i && p(songs[j]);
      FilterMany(songs, p, if i < j then i else j, if i < j then j else i);
    } else {
      FilterNone(songs, p);
    }
  }

  /** What the lookup finds, exactly.  If some song has the source's number, the songs
      with the number decide; otherwise those with its name and author and without a
      conflicting number do.  One such song is found, several are ambiguous. */
  lemma ScanFindsExactly(source: SourceSong, songs: seq<TargetSong>, norm: Norm)
    ensures if exists k :: 0 <= k < |songs| && HasNumber(source, songs[k], norm)
            then Counted(songs, (t: TargetSong) => HasNumber(source, t, norm), ByCcli, Scan(source, songs, norm))
            else Counted(songs, (t: TargetSong) => HasName(source, t, norm), ByNameAndAuthor, Scan(source, songs, norm))
  {
    hide Counted, Unique;
    var ccli, name, author := norm.ccli(source.ccli), norm.text(source.name), norm.text(source.artist);
    var numbered := (t: TargetSong) => HasNumber(source, t, norm);
    var named := (t: TargetSong) => HasName(source, t, norm);
    UniqueCounts(songs, numbered, ByCcli);
    UniqueCounts(songs, named, ByNameAndAuthor);
    var byCcli := if ccli == "" then [] else SameCcli(songs, ccli, norm);
    NumberedAre(source, songs, norm);
    NamedAre(source, songs, norm);
    if k :| 0 <= k < |songs| && HasNumber(source, songs[k], norm) {
      FilterMember(songs, numbered, songs[k]);
    } else {
      FilterNone(songs, numbered);
    }
  }

  lemma NumberedAre(source: SourceSong, songs: seq<TargetSong>, norm: Norm)
    ensures Filter(songs, (t: TargetSong) => HasNumber(source, t, norm))
            == if norm.ccli(source.ccli) == "" then [] else SameCcli(songs, norm.ccli(source.ccli), norm)
  {
    var ccli := norm.ccli(source.ccli);
    if ccli == "" {
      FilterNone(songs, (t: TargetSong) => HasNumber(source, t, norm));
    } else {
      FilterAlike(songs, (t: TargetSong) => HasNumber(source, t, norm), (t: TargetSong) => norm.ccli(t.ccli) == ccli);
    }
  }

  lemma NamedAre(source: SourceSong, songs: seq<TargetSong>, norm: Norm)
    ensures Filter(songs, (t: TargetSong) => HasName(source, t, norm))
            == Compatible(SameName(songs, norm.text(source.name), norm.text(source.artist), norm), norm.ccli(source.ccli), norm)
  {
    var ccli, name, author := norm.ccli(source.ccli), norm.text(source.name), norm.text(source.artist);
    var same := (t: TargetSong) => norm.text(t.name) == name && norm.text(t.author) == author;
    var named := (t: TargetSong) => HasName(source, t, norm);
    if ccli == "" {
      FilterAlike(songs, named, same);
    } else {
      FilterTwice(songs, same, (t: TargetSong) => norm.ccli(t.ccli) == "" || norm.ccli(t.ccli) == ccli, named);
    }
  }
}
