/** The "videos" collection as the two functions/index.js handlers change
    it: the scheduled `updateVideoVisibility` job and the
    `moderateVideo` document-creation trigger. A document reference is a
    position in the collection. */
module VideoStore {
  import opened Wrappers
  import opened Visibility
  import opened Moderation

  class VideoCollection {
    var docs: seq<Video>

    constructor (initial: seq<Video>)
      ensures docs == initial
    {
      docs := initial;
    }

    /** One scheduled run. `commitOk` is the outcome of the query and of
        `batch.commit()`; a failure is logged and swallowed, leaving the
        collection as it was. */
    method UpdateVideoVisibility(commitOk: bool)
      modifies this
      ensures docs == if commitOk then Refreshed(old(docs)) else old(docs)
    {
      var snapshot := Query(docs);
      if |snapshot| == 0 {
        RefreshedWithoutEligible(docs);
        return;
      }
      var batch := BuildBatch(docs, snapshot);
      if commitOk {
        CommitPlannedBatch(docs, batch);
        docs := Commit(docs, batch);
      }
    }

    /** The trigger for a created record: `created` is its position, `None`
        when the event carries no data. Only that record's
        `moderationStatus` is written; the text handed to the classifier
        is returned (`None`: the classifier was not called). */
    method ModerateVideo(created: Option<nat>, classifier: string -> Option<string>)
      returns (prompted: Option<string>)
      requires created.Some? ==> created.value < |docs|
      modifies this
      ensures created.None? ==> docs == old(docs) && prompted == None
      ensures created.Some? ==>
        var d := ModerationDecision(old(docs)[created.value].caption, classifier);
        && docs == old(docs)[created.value := old(docs)[created.value].(moderationStatus := Some(d.status))]
        && prompted == d.prompted
    {
      if created.None? {
        return None;
      }
      var id := created.value;
      var text := CaptionText(docs[id].caption);
      if text == "" {
        docs := docs[id := docs[id].(moderationStatus := Some(SAFE))];
        return None;
      }
      prompted := Some(text);
      match classifier(text)
      case None =>
        docs := docs[id := docs[id].(moderationStatus := Some(ERROR))];
      case Some(reply) =>
        docs := docs[id := docs[id].(moderationStatus := Some(Classify(reply)))];
    }
  }
}
