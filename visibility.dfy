/** The scheduled visibility job of functions/index.js
    (`updateVideoVisibility`): the diamond ladder, the query for records
    whose moderation passed, the batch of writes built from the query's
    snapshot, and what committing that batch does to the collection. */
module Visibility {
  import opened Wrappers
  import Moderation

  /** A record of the "videos" collection, with the fields the handlers
      read or write; a field missing from a document is `None`. */
  datatype Video = Video(
    caption: Option<string>,
    moderationStatus: Option<string>,
    diamonds: int,
    visibilityLevel: Option<int>,
    status: Option<string>,
    trending: Option<bool>)

  /** The three fields the job writes. */
  datatype Tier = Tier(visibilityLevel: int, status: string, trending: bool)

  const ACTIVE := "active"
  const HIDDEN := "hidden"

  /** The ladder: 5 or more diamonds is level 3 and trending, 3-4 is level 2,
      1-2 is level 1, fewer is level 0 and hidden. */
  function Ladder(diamonds: int): (t: Tier)
    ensures 0 <= t.visibilityLevel <= 3
    ensures t.status == ACTIVE <==> diamonds >= 1
    ensures t.status == HIDDEN <==> diamonds < 1
    ensures t.trending <==> t.visibilityLevel == 3
    ensures t.visibilityLevel == 3 <==> diamonds >= 5
    ensures t.visibilityLevel == 2 <==> 3 <= diamonds < 5
    ensures t.visibilityLevel == 1 <==> 1 <= diamonds < 3
  {
    var level := if diamonds >= 5 then 3 else if diamonds >= 3 then 2 else if diamonds >= 1 then 1 else 0;
    Tier(level, if level > 0 then ACTIVE else HIDDEN, level == 3)
  }

  /** More diamonds never lower the level, and never turn trending off. */
  lemma LadderMonotone(a: int, b: int)
    requires a <= b
    ensures Ladder(a).visibilityLevel <= Ladder(b).visibilityLevel
    ensures Ladder(a).trending ==> Ladder(b).trending
    ensures Ladder(a).status == ACTIVE ==> Ladder(b).status == ACTIVE
  {
  }

  /** The query filter: `moderationStatus == "safe"`. */
  predicate Eligible(v: Video) {
    v.moderationStatus == Some(Moderation.SAFE)
  }

  /** `batch.update(doc.ref, {visibilityLevel, status, trending})` on a record. */
  function WithTier(v: Video, t: Tier): (r: Video)
    ensures r.visibilityLevel == Some(t.visibilityLevel) && r.status == Some(t.status)
    ensures r.trending == Some(t.trending)
    ensures r.caption == v.caption && r.moderationStatus == v.moderationStatus && r.diamonds == v.diamonds
  {
    v.(visibilityLevel := Some(t.visibilityLevel), status := Some(t.status), trending := Some(t.trending))
  }

  /** One record after the job: eligible records get the ladder's tier for
      their diamonds; nothing else about any record changes. */
  function Refresh(v: Video): (r: Video)
    ensures r.caption == v.caption && r.moderationStatus == v.moderationStatus && r.diamonds == v.diamonds
    ensures !Eligible(v) ==> r == v
    ensures Eligible(v) ==> r.visibilityLevel == Some(Ladder(v.diamonds).visibilityLevel)
    ensures Eligible(v) ==> r.status == Some(Ladder(v.diamonds).status)
    ensures Eligible(v) ==> r.trending == Some(Ladder(v.diamonds).trending)
  {
    if Eligible(v) then WithTier(v, Ladder(v.diamonds)) else v
  }

  /** The whole collection after one successful run of the job. */
  function Refreshed(docs: seq<Video>): (r: seq<Video>)
    ensures |r| == |docs|
    ensures forall i :: 0 <= i < |docs| && !Eligible(docs[i]) ==> r[i] == docs[i]
    ensures forall i :: 0 <= i < |docs| && Eligible(docs[i]) ==>
      r[i] == WithTier(docs[i], Ladder(docs[i].diamonds))
  {
    seq(|docs|, i requires 0 <= i < |docs| => Refresh(docs[i]))
  }

  /** A second run changes nothing: the written fields feed neither the
      filter nor the ladder. */
  lemma RefreshedIdempotent(docs: seq<Video>)
    ensures Refreshed(Refreshed(docs)) == Refreshed(docs)
  {
  }

  /** With no eligible record the run is a no-op. */
  lemma RefreshedWithoutEligible(docs: seq<Video>)
    requires forall i :: 0 <= i < |docs| ==> !Eligible(docs[i])
    ensures Refreshed(docs) == docs
  {
  }

  /** The query's snapshot from position `from` on: positions of the
      eligible records, in collection order. */
  function EligibleFrom(docs: seq<Video>, from: nat): (r: seq<nat>)
    requires from <= |docs|
    ensures forall k :: 0 <= k < |r| ==> from <= r[k] < |docs| && Eligible(docs[r[k]])
    ensures forall k, l :: 0 <= k < l < |r| ==> r[k] < r[l]
    ensures forall j :: from <= j < |docs| && Eligible(docs[j]) ==> j in r
    decreases |docs| - from
  {
    if from == |docs| then []
    else if Eligible(docs[from]) then [from] + EligibleFrom(docs, from + 1)
    else EligibleFrom(docs, from + 1)
  }

  /** `collection("videos").where("moderationStatus", "==", "safe").get()`. */
  function Query(docs: seq<Video>): (r: seq<nat>)
    ensures forall k :: 0 <= k < |r| ==> r[k] < |docs| && Eligible(docs[r[k]])
    ensures forall k, l :: 0 <= k < l < |r| ==> r[k] < r[l]
    ensures forall j :: 0 <= j < |docs| && Eligible(docs[j]) ==> j in r
  {
    EligibleFrom(docs, 0)
  }

  /** One queued `batch.update`: the record's position and the fields written. */
  datatype Write = Write(doc: nat, tier: Tier)

  /** The `snapshot.forEach` loop: one write per snapshot entry, in order,
      carrying the ladder's tier for that record's diamonds. */
  method BuildBatch(docs: seq<Video>, snapshot: seq<nat>) returns (batch: seq<Write>)
    requires forall k :: 0 <= k < |snapshot| ==> snapshot[k] < |docs|
    ensures |batch| == |snapshot|
    ensures forall k :: 0 <= k < |batch| ==>
      batch[k] == Write(snapshot[k], Ladder(docs[snapshot[k]].diamonds))
  {
    batch := [];
    var k := 0;
    while k < |snapshot|
      invariant 0 <= k <= |snapshot|
      invariant |batch| == k
      invariant forall m :: 0 <= m < k ==>
        batch[m] == Write(snapshot[m], Ladder(docs[snapshot[m]].diamonds))
    {
      var data := docs[snapshot[k]];
      var visibilityLevel := 0;
      var status := HIDDEN;
      if data.diamonds >= 5 {
        visibilityLevel := 3;
        status := ACTIVE;
      } else if data.diamonds >= 3 {
        visibilityLevel := 2;
        status := ACTIVE;
      } else if data.diamonds >= 1 {
        visibilityLevel := 1;
        status := ACTIVE;
      }
      batch := batch + [Write(snapshot[k], Tier(visibilityLevel, status, visibilityLevel == 3))];
      k := k + 1;
    }
  }

  /** Applying one queued write. */
  function ApplyWrite(docs: seq<Video>, w: Write): (r: seq<Video>)
    ensures |r| == |docs|
    ensures w.doc < |docs| ==> r[w.doc] == WithTier(docs[w.doc], w.tier)
    ensures forall j :: 0 <= j < |docs| && j != w.doc ==> r[j] == docs[j]
  {
    if w.doc < |docs| then docs[w.doc := WithTier(docs[w.doc], w.tier)] else docs
  }

  /** `batch.commit()`: the queued writes applied in order, all together. */
  function Commit(docs: seq<Video>, batch: seq<Write>): (r: seq<Video>)
    ensures |r| == |docs|
    ensures forall j :: 0 <= j < |docs| && Eligible(docs[j]) ==> Eligible(r[j])
    ensures forall j :: 0 <= j < |docs| ==> r[j].diamonds == docs[j].diamonds
    ensures forall j :: 0 <= j < |docs| ==>
      r[j].caption == docs[j].caption && r[j].moderationStatus == docs[j].moderationStatus
    decreases |batch|
  {
    if batch == [] then docs else Commit(ApplyWrite(docs, batch[0]), batch[1..])
  }

  /** A record that no write targets keeps its value. */
  lemma {:induction false} CommitUntouched(docs: seq<Video>, batch: seq<Write>, j: nat)
    requires forall k :: 0 <= k < |batch| ==> batch[k].doc != j
    ensures |Commit(docs, batch)| == |docs|
    ensures j < |docs| ==> Commit(docs, batch)[j] == docs[j]
    decreases |batch|
  {
    if batch != [] {
      CommitUntouched(ApplyWrite(docs, batch[0]), batch[1..], j);
    }
  }

  /** With distinct targets, each targeted record ends with its write's tier. */
  lemma {:induction false} CommitWritten(docs: seq<Video>, batch: seq<Write>, k: nat)
    requires forall m :: 0 <= m < |batch| ==> batch[m].doc < |docs|
    requires forall m, n :: 0 <= m < n < |batch| ==> batch[m].doc != batch[n].doc
    requires k < |batch|
    ensures |Commit(docs, batch)| == |docs|
    ensures Commit(docs, batch)[batch[k].doc] == WithTier(docs[batch[k].doc], batch[k].tier)
    decreases |batch|
  {
    var next := ApplyWrite(docs, batch[0]);
    var j := batch[k].doc;
    if k == 0 {
      CommitUntouched(next, batch[1..], j);
    } else {
      CommitWritten(next, batch[1..], k - 1);
    }
  }

  /** Committing the batch built from the query's snapshot gives exactly the
      refreshed collection. */
  lemma CommitPlannedBatch(docs: seq<Video>, batch: seq<Write>)
    requires |batch| == |Query(docs)|
    requires forall k :: 0 <= k < |batch| ==>
      batch[k] == Write(Query(docs)[k], Ladder(docs[Query(docs)[k]].diamonds))
    ensures Commit(docs, batch) == Refreshed(docs)
  {
    var q := Query(docs);
    var after := Commit(docs, batch);
    CommitUntouched(docs, batch, |docs|);
    forall j | 0 <= j < |docs|
      ensures after[j] == Refreshed(docs)[j]
    {
      if Eligible(docs[j]) {
        var k :| 0 <= k < |q| && q[k] == j;
        CommitWritten(docs, batch, k);
      } else {
        CommitUntouched(docs, batch, j);
      }
    }
  }
}
