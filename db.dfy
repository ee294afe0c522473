/** The video-record store: a sequence of records with a first-match lookup,
    an append, and the two statistics updates driven by the tracking route. */
module Db {
  import opened Types

  // ---------------------------------------------------------------------------
  // Specification of the store's operations on the sequence of records
  // ---------------------------------------------------------------------------

  /** The index of the first record at or after `from` carrying `id`, or -1. */
  function FirstMatchFrom(s: seq<Video>, id: string, from: nat): (r: int)
    requires from <= |s|
    ensures r == -1 || from <= r < |s|
    ensures r == -1 <==> forall j :: from <= j < |s| ==> s[j].id != id
    ensures 0 <= r ==> s[r].id == id && forall j :: from <= j < r ==> s[j].id != id
    decreases |s| - from
  {
    if from == |s| then -1
    else if s[from].id == id then from
    else FirstMatchFrom(s, id, from + 1)
  }

  /** What `findIndex(v => v.id === id)` answers: the index of the first record
      carrying `id`, or -1 when there is none. */
  function FirstMatch(s: seq<Video>, id: string): (r: int)
    ensures -1 <= r < |s|
    ensures r == -1 <==> forall j :: 0 <= j < |s| ==> s[j].id != id
    ensures 0 <= r ==> s[r].id == id && forall j :: 0 <= j < r ==> s[j].id != id
  {
    FirstMatchFrom(s, id, 0)
  }

  /** Two stores holding the same ids in the same order answer every lookup alike. */
  lemma SameIdsSameMatch(s: seq<Video>, t: seq<Video>, id: string)
    requires |s| == |t|
    requires forall j :: 0 <= j < |s| ==> s[j].id == t[j].id
    ensures FirstMatch(s, id) == FirstMatch(t, id)
  {
  }

  /** What `find(v => v.id === id)` answers: the first record carrying `id`. */
  function Lookup(s: seq<Video>, id: string): (r: Option<Video>)
    ensures r.None? <==> forall j :: 0 <= j < |s| ==> s[j].id != id
    ensures r.Some? ==> r.value.id == id
    ensures r.Some? ==> exists i :: 0 <= i < |s| && s[i] == r.value && forall j :: 0 <= j < i ==> s[j].id != id
  {
    var i := FirstMatch(s, id);
    if i == -1 then None else Some(s[i])
  }

  /** The incremental weighted mean: the old mean over `watches` observations
      and one new observation `p`, weighted 1/(watches + 1). Its properties are
      stated in `WeightedMeanProperties`, so that only the proofs that need its
      arithmetic see it. */
  function WeightedMean(rate: real, watches: nat, p: real): real
  {
    (rate * (watches as real) + p) / (watches as real + 1.0)
  }

  /** The new mean weighted by the new count is the old total plus `p`, a first
      observation is taken as it is, and the new mean lies between the old mean
      and `p`. */
  lemma WeightedMeanProperties(rate: real, watches: nat, p: real)
    ensures var r := WeightedMean(rate, watches, p);
      && r * (watches as real + 1.0) == rate * (watches as real) + p
      && (watches == 0 ==> r == p)
      && Min(rate, p) <= r <= Max(rate, p)
  {
    var n := watches as real;
    var r := WeightedMean(rate, watches, p);
    assert r * (n + 1.0) == rate * n + p;
    assert r - rate == (p - rate) / (n + 1.0);
  }

  /** The record as `incrementViews` leaves it: one more view, every other field kept. */
  function Viewed(v: Video): (r: Video)
    ensures r.views == v.views + 1
    ensures r.id == v.id && r.createdAt == v.createdAt && r.filename == v.filename
    ensures r.completionRate == v.completionRate && r.totalWatches == v.totalWatches
  {
    v.(views := v.views + 1)
  }

  /** The record as `updateCompletion` leaves it: one more watch, the rate moved to
      the weighted mean of the old rate and `p`, every other field kept. */
  function Completed(v: Video, p: real): (r: Video)
    ensures r.totalWatches == v.totalWatches + 1
    ensures r.completionRate == WeightedMean(v.completionRate, v.totalWatches, p)
    ensures r.id == v.id && r.createdAt == v.createdAt && r.filename == v.filename && r.views == v.views
  {
    v.(completionRate := WeightedMean(v.completionRate, v.totalWatches, p),
       totalWatches := v.totalWatches + 1)
  }

  /** The store after `incrementViews(id)`: the first record carrying `id` gains one
      view and nothing else changes; with no such record the store is untouched. */
  function ApplyView(s: seq<Video>, id: string): (r: seq<Video>)
    ensures |r| == |s|
    ensures FirstMatch(s, id) == -1 ==> r == s
    ensures 0 <= FirstMatch(s, id) ==> r == s[FirstMatch(s, id) := r[FirstMatch(s, id)]]
    ensures 0 <= FirstMatch(s, id) ==>
      var i := FirstMatch(s, id);
      && r[i].views == s[i].views + 1
      && r[i].id == s[i].id && r[i].createdAt == s[i].createdAt && r[i].filename == s[i].filename
      && r[i].completionRate == s[i].completionRate && r[i].totalWatches == s[i].totalWatches
  {
    var i := FirstMatch(s, id);
    if i == -1 then s else s[i := Viewed(s[i])]
  }

  /** The store after `updateCompletion(id, p)`: the first record carrying `id` counts
      one more watch and folds `p` into its mean; nothing else changes; with no such
      record the store is untouched. */
  function ApplyCompletion(s: seq<Video>, id: string, p: real): (r: seq<Video>)
    ensures |r| == |s|
    ensures FirstMatch(s, id) == -1 ==> r == s
    ensures 0 <= FirstMatch(s, id) ==> r == s[FirstMatch(s, id) := r[FirstMatch(s, id)]]
    ensures 0 <= FirstMatch(s, id) ==>
      var i := FirstMatch(s, id);
      && r[i].totalWatches == s[i].totalWatches + 1
      && r[i].completionRate == WeightedMean(s[i].completionRate, s[i].totalWatches, p)
      && r[i].id == s[i].id && r[i].createdAt == s[i].createdAt && r[i].filename == s[i].filename
      && r[i].views == s[i].views
  {
    var i := FirstMatch(s, id);
    if i == -1 then s else s[i := Completed(s[i], p)]
  }

  // ---------------------------------------------------------------------------
  // Properties of the specification
  // ---------------------------------------------------------------------------

  /** Appending a record never changes what an earlier record answers; the new
      record is found only when no earlier record has its id (no uniqueness check). */
  lemma CreateThenLookup(s: seq<Video>, v: Video, id: string)
    ensures Lookup(s + [v], id) ==
      if Lookup(s, id).Some? then Lookup(s, id)
      else if v.id == id then Some(v)
      else None
  {
    var t := s + [v];
    assert forall j :: 0 <= j < |s| ==> t[j] == s[j];
    assert t[|s|] == v;
    var i := FirstMatch(s, id);
    if i == -1 {
      if v.id == id {
        assert FirstMatch(t, id) == |s|;
      } else {
        assert forall j :: 0 <= j < |t| ==> t[j].id != id;
      }
    } else {
      assert FirstMatch(t, id) == i;
    }
  }

  /** `incrementViews` applied `n` times in a row. */
  function ViewsTimes(s: seq<Video>, id: string, n: nat): seq<Video>
    decreases n
  {
    if n == 0 then s else ViewsTimes(ApplyView(s, id), id, n - 1)
  }

  /** The closed form of `n` views: the first record carrying `id` has `n` more
      views, or the store is unchanged when no record carries it. */
  function AddViews(s: seq<Video>, id: string, n: nat): seq<Video>
  {
    var i := FirstMatch(s, id);
    if i == -1 then s else s[i := s[i].(views := s[i].views + n)]
  }

  /** Zero views change nothing. */
  lemma AddNoViews(s: seq<Video>, id: string)
    ensures AddViews(s, id, 0) == s
  {
    var i := FirstMatch(s, id);
    if 0 <= i {
      assert s[i].(views := s[i].views + 0) == s[i];
    }
  }

  /** `k` views after one view are `k + 1` views. */
  lemma ViewStep(s: seq<Video>, id: string, k: nat)
    ensures AddViews(ApplyView(s, id), id, k) == AddViews(s, id, k + 1)
  {
    var i := FirstMatch(s, id);
    if 0 <= i {
      var t := ApplyView(s, id);
      assert forall j :: 0 <= j < |s| ==> t[j].id == s[j].id;
      SameIdsSameMatch(s, t, id);
      assert AddViews(t, id, k) == t[i := t[i].(views := t[i].views + k)];
    }
  }

  /** `n` views of a present id add exactly `n` to that record's count and leave
      everything else as it was; on an absent id they leave the store alone. */
  lemma {:induction false} RepeatedViews(s: seq<Video>, id: string, n: nat)
    ensures ViewsTimes(s, id, n) == AddViews(s, id, n)
    decreases n
  {
    if n == 0 {
      AddNoViews(s, id);
    } else {
      RepeatedViews(ApplyView(s, id), id, n - 1);
      ViewStep(s, id, n - 1);
    }
  }

  /** Sum of a sequence of percentages. */
  function Sum(ps: seq<real>): real
  {
    if ps == [] then 0.0 else ps[0] + Sum(ps[1..])
  }

  /** `updateCompletion` applied to one record for each percentage of `ps`, in order. */
  function FoldCompletions(v: Video, ps: seq<real>): Video
    decreases ps
  {
    if ps == [] then v else FoldCompletions(Completed(v, ps[0]), ps[1..])
  }

  /** One completion adds one watch and adds `p` to the weighted total. */
  lemma CompletedStep(v: Video, p: real)
    ensures var w := Completed(v, p);
      && w.totalWatches == v.totalWatches + 1
      && w.completionRate * (w.totalWatches as real) == v.completionRate * (v.totalWatches as real) + p
      && w.views == v.views && w.id == v.id && w.createdAt == v.createdAt && w.filename == v.filename
  {
    WeightedMeanProperties(v.completionRate, v.totalWatches, p);
  }

  /** Closed form of the running mean: after the percentages `ps` the record has
      |ps| more watches and its rate times its watches is the old weighted total
      plus the sum of `ps`; views and the identifying fields are untouched. */
  lemma {:induction false} FoldCompletionsClosedForm(v: Video, ps: seq<real>)
    ensures var r := FoldCompletions(v, ps);
      && r.totalWatches == v.totalWatches + |ps|
      && r.completionRate * (r.totalWatches as real)
         == v.completionRate * (v.totalWatches as real) + Sum(ps)
      && r.views == v.views && r.id == v.id && r.createdAt == v.createdAt && r.filename == v.filename
    decreases ps
  {
    if ps != [] {
      var w := Completed(v, ps[0]);
      var r := FoldCompletions(w, ps[1..]);
      assert FoldCompletions(v, ps) == r;
      assert Sum(ps) == ps[0] + Sum(ps[1..]);
      var before, mid, after := v.completionRate * (v.totalWatches as real),
        w.completionRate * (w.totalWatches as real), r.completionRate * (r.totalWatches as real);
      assert w.totalWatches == v.totalWatches + 1 && mid == before + ps[0]
          && w.views == v.views && w.id == v.id && w.createdAt == v.createdAt && w.filename == v.filename by {
        CompletedStep(v, ps[0]);
      }
      assert r.totalWatches == w.totalWatches + |ps[1..]| && after == mid + Sum(ps[1..])
          && r.views == w.views && r.id == w.id && r.createdAt == w.createdAt && r.filename == w.filename by {
        FoldCompletionsClosedForm(w, ps[1..]);
      }
    }
  }

  /** `updateCompletion` applied to the store once for each percentage of `ps`, in order. */
  function CompletionsTimes(s: seq<Video>, id: string, ps: seq<real>): seq<Video>
    decreases ps
  {
    if ps == [] then s else CompletionsTimes(ApplyCompletion(s, id, ps[0]), id, ps[1..])
  }

  /** Successive completions on the store act on the first record carrying `id`
      exactly as the per-record fold does, and leave every other record alone; on
      an absent id they leave the store unchanged. */
  lemma {:induction false} RepeatedCompletions(s: seq<Video>, id: string, ps: seq<real>)
    ensures CompletionsTimes(s, id, ps) ==
      if FirstMatch(s, id) == -1 then s
      else s[FirstMatch(s, id) := FoldCompletions(s[FirstMatch(s, id)], ps)]
    decreases ps
  {
    var i := FirstMatch(s, id);
    if ps == [] {
      if 0 <= i {
        assert s[i := s[i]] == s;
      }
    } else {
      var t := ApplyCompletion(s, id, ps[0]);
      RepeatedCompletions(t, id, ps[1..]);
      if 0 <= i {
        assert forall j :: 0 <= j < |s| ==> t[j].id == s[j].id;
        SameIdsSameMatch(s, t, id);
        assert t[i] == Completed(s[i], ps[0]);
        assert FoldCompletions(t[i], ps[1..]) == FoldCompletions(s[i], ps);
        assert t[i := FoldCompletions(t[i], ps[1..])] == s[i := FoldCompletions(s[i], ps)];
      }
    }
  }

  /** Multiplying by a positive count can be undone by dividing by it. */
  lemma DivideBack(x: real, n: real, y: real)
    requires n > 0.0 && x * n == y
    ensures x == y / n
  {
  }

  /** A record that starts with no watches ends with the arithmetic mean of every
      percentage reported for it. */
  lemma FreshRecordAverages(v: Video, ps: seq<real>)
    requires v.totalWatches == 0 && |ps| > 0
    ensures FoldCompletions(v, ps).completionRate == Sum(ps) / (|ps| as real)
  {
    FoldCompletionsClosedForm(v, ps);
    var r := FoldCompletions(v, ps);
    assert v.completionRate * (v.totalWatches as real) == 0.0;
    DivideBack(r.completionRate, |ps| as real, Sum(ps));
  }

  /** The mean never leaves an interval that holds the old rate and every new
      percentage. */
  lemma {:induction false} FoldCompletionsInHull(v: Video, ps: seq<real>, lo: real, hi: real)
    requires lo <= v.completionRate <= hi
    requires forall k :: 0 <= k < |ps| ==> lo <= ps[k] <= hi
    ensures lo <= FoldCompletions(v, ps).completionRate <= hi
    decreases ps
  {
    if ps != [] {
      WeightedMeanProperties(v.completionRate, v.totalWatches, ps[0]);
      FoldCompletionsInHull(Completed(v, ps[0]), ps[1..], lo, hi);
    }
  }

  /** For a record with no watches yet, the rate stays between the least and the
      greatest percentage ever reported, whatever rate it started with. */
  lemma FreshRecordInHull(v: Video, ps: seq<real>, lo: real, hi: real)
    requires v.totalWatches == 0 && |ps| > 0
    requires forall k :: 0 <= k < |ps| ==> lo <= ps[k] <= hi
    ensures lo <= FoldCompletions(v, ps).completionRate <= hi
  {
    WeightedMeanProperties(v.completionRate, v.totalWatches, ps[0]);
    FoldCompletionsInHull(Completed(v, ps[0]), ps[1..], lo, hi);
  }

  /** Every stored rate is a percentage. */
  predicate RatesArePercentages(s: seq<Video>)
  {
    forall j :: 0 <= j < |s| ==> 0.0 <= s[j].completionRate <= 100.0
  }

  /** Both updates keep every rate a percentage as long as the reported value is
      one; nothing in the store clamps it. */
  lemma UpdatesKeepPercentages(s: seq<Video>, id: string, p: real)
    requires RatesArePercentages(s)
    ensures RatesArePercentages(ApplyView(s, id))
    ensures 0.0 <= p <= 100.0 ==> RatesArePercentages(ApplyCompletion(s, id, p))
  {
    var i := FirstMatch(s, id);
    if 0 <= i {
      WeightedMeanProperties(s[i].completionRate, s[i].totalWatches, p);
    }
  }

  // ---------------------------------------------------------------------------
  // The store itself
  // ---------------------------------------------------------------------------

  /** The records behind `readDB`/`writeDB`, held in memory; each method is one
      read-modify-write cycle, taken as atomic. */
  class VideoStore {
    var videos: seq<Video>

    /** `ensureDB` on a missing file: an empty collection. */
    constructor ()
      ensures videos == []
    {
      videos := [];
    }

    /** `getVideos`: every record, in stored order. */
    method GetVideos() returns (r: seq<Video>)
      ensures r == videos
    {
      r := videos;
    }

    /** `findIndex`: a left-to-right scan for the first record carrying `id`. */
    method FindIndex(id: string) returns (idx: int)
      ensures idx == FirstMatch(videos, id)
      ensures -1 <= idx < |videos|
      ensures 0 <= idx ==> videos[idx].id == id
      ensures forall j :: 0 <= j < |videos| && (idx == -1 || j < idx) ==> videos[j].id != id
    {
      var i := 0;
      while i < |videos|
        invariant 0 <= i <= |videos|
        invariant forall j :: 0 <= j < i ==> videos[j].id != id
      {
        if videos[i].id == id {
          idx := i;
          return;
        }
        i := i + 1;
      }
      idx := -1;
    }

    /** `getVideo`: the first record whose id is `id`, or nothing. The store is read only. */
    method GetVideo(id: string) returns (r: Option<Video>)
      ensures r == Lookup(videos, id)
      ensures r.None? <==> forall j :: 0 <= j < |videos| ==> videos[j].id != id
      ensures r.Some? ==> r.value.id == id && r.value in videos
    {
      var i := FindIndex(id);
      if i == -1 {
        r := None;
      } else {
        r := Some(videos[i]);
      }
    }

    /** `createVideo`: append the record as given; ids are not checked for uniqueness. */
    method CreateVideo(v: Video)
      modifies this
      ensures videos == old(videos) + [v]
      ensures |videos| == |old(videos)| + 1 && videos[|videos| - 1] == v
      ensures forall j :: 0 <= j < |old(videos)| ==> videos[j] == old(videos)[j]
    {
      videos := videos + [v];
    }

    /** `incrementViews`: one more view on the first record carrying `id`; a silent
        no-op when there is none. */
    method IncrementViews(id: string)
      modifies this
      ensures videos == ApplyView(old(videos), id)
    {
      var i := FindIndex(id);
      if i > -1 {
        videos := videos[i := videos[i].(views := videos[i].views + 1)];
      }
    }

    /** `updateCompletion`: fold percentage `p` into the running mean of the first
        record carrying `id` and count the watch; a silent no-op when there is none. */
    method UpdateCompletion(id: string, p: real)
      modifies this
      ensures videos == ApplyCompletion(old(videos), id, p)
    {
      var i := FindIndex(id);
      if i > -1 {
        var video := videos[i];
        var totalWatches := video.totalWatches;
        var currentAvg := video.completionRate;
        var newTotalWatches := totalWatches + 1;
        var newAvg := WeightedMean(currentAvg, totalWatches, p);
        videos := videos[i := video.(completionRate := newAvg, totalWatches := newTotalWatches)];
      }
    }
  }
}
