/**
 The radar mutation callbacks as they overwrite and restore the query client.  The
 ghost trace records them as steps of Mutations, so what is proved about every
 interleaving holds of the fields of every object driven through these methods.
 */
module RadarQueries {
  import opened Wrappers
  import opened Mutations
  import opened RadarCache

  class QueryClient {
    ghost const start: Cache
    ghost var trace: seq<Step<Change>>

    var topics: Option<seq<TopicView>>
    var topic: map<int, TopicView>
    var feeds: Option<seq<FeedView>>
    /** The mutations under way with the context their onMutate returned. */
    var open: map<nat, Open<Change, Rollback>>

    constructor (cache: Cache)
      ensures Valid() && start == cache && trace == [] && open == map[]
    {
      topics, topic, feeds, open := cache.topics, cache.topic, cache.feeds, map[];
      start, trace := cache, [];
    }

    function View(): Cache
      reads this
    {
      Cache(topics, topic, feeds)
    }

    ghost predicate Valid()
      reads this
    {
      State(View(), open) == Run(Edits(), State(start, map[]), trace)
    }

    ghost method Commit(step: Step<Change>)
      modifies this`trace
      ensures trace == old(trace) + [step]
      ensures Run(Edits(), State(start, map[]), trace) == Apply(Edits(), old(Run(Edits(), State(start, map[]), trace)), step)
    {
      RunSnoc(Edits(), State(start, map[]), trace, step);
      trace := trace + [step];
    }

    /** What every caller may count on: with failures only of the latest survivor, the survivors and nothing else show. */
    lemma ShowsSurvivors()
      requires Valid() && LastFailsFirst([], {}, trace)
      ensures View() == PatchAll(Edits(), start, Survivors([], {}, trace))
    {
      EditsUndo();
      SurvivorsShow(Edits(), start, trace);
    }

    /** useUpdateTopic's onMutate: the edited topic shows the given fields at once, and no other topic changes. */
    method MutateTopic(m: nat, id: int, input: TopicInput)
      requires Valid() && m !in open
      modifies this
      ensures Valid() && trace == old(trace) + [Mutate(m, EditTopic(id, input))]
      ensures m in open && feeds == old(feeds)
      ensures topics.Some? <==> old(topics).Some?
      ensures topics.Some? ==> |topics.value| == |old(topics).value|
      ensures topics.Some? ==> forall i :: 0 <= i < |topics.value| ==> ShowsEdit(topics.value[i], old(topics).value[i], id, input)
      ensures topic.Keys == old(topic).Keys && forall k :: k in topic && k != id ==> topic[k] == old(topic)[k]
    {
      var previousTopics := topics;
      var previousTopic := if id in topic then Some(topic[id]) else None;
      if previousTopics.Some? {
        topics := Some(PatchTopics(previousTopics.value, id, input));
      }
      if previousTopic.Some? {
        topic := topic[id := PatchTopic(previousTopic.value, input)];
      }
      open := open[m := Open(EditTopic(id, input), TopicRollback(previousTopics, previousTopic))];
      Commit(Mutate(m, EditTopic(id, input)));
    }

    /** useToggleSubscription's onMutate. */
    method MutateSubscription(m: nat, id: int, subscribed: bool)
      requires Valid() && m !in open
      modifies this
      ensures Valid() && trace == old(trace) + [Mutate(m, Toggle(id, subscribed))]
      ensures m in open && topics == old(topics) && topic == old(topic)
      ensures feeds.Some? <==> old(feeds).Some?
      ensures feeds.Some? ==> |feeds.value| == |old(feeds).value|
      ensures feeds.Some? ==> forall i :: 0 <= i < |feeds.value| ==> ShowsToggle(feeds.value[i], old(feeds).value[i], id, subscribed)
    {
      var previous := feeds;
      if previous.Some? {
        feeds := Some(ToggleFeeds(previous.value, id, subscribed));
      }
      open := open[m := Open(Toggle(id, subscribed), FeedRollback(previous))];
      Commit(Mutate(m, Toggle(id, subscribed)));
    }

    /** The onError of either mutation: afterwards, as long as failures came latest first, exactly the survivors show. */
    method Fail(m: nat)
      requires Valid() && m in open
      modifies this
      ensures Valid() && trace == old(trace) + [Step.Fail(m)] && m !in open
      ensures LastFailsFirst([], {}, trace) ==> View() == PatchAll(Edits(), start, Survivors([], {}, trace))
      ensures open.Keys == old(open).Keys - {m}
    {
      match open[m].ctx {
        case TopicRollback(previousTopics, previousTopic) =>
          if previousTopics.Some? {
            topics := previousTopics;
          }
          if previousTopic.Some? {
            topic := topic[open[m].change.id := previousTopic.value];
          }
        case FeedRollback(previous) =>
          if previous.Some? {
            feeds := previous;
          }
      }
      open := open - {m};
      Commit(Step.Fail(m));
      if LastFailsFirst([], {}, trace) { ShowsSurvivors(); }
    }

    /** A success changes nothing until the invalidated queries are fetched again. */
    method Succeed(m: nat)
      requires Valid() && m in open
      modifies this
      ensures Valid() && trace == old(trace) + [Step.Succeed(m)] && View() == old(View()) && m !in open
    {
      open := open - {m};
      Commit(Step.Succeed(m));
    }
  }

  /** The topic before and after an edit of the topic id. */
  predicate ShowsEdit(after: TopicView, before: TopicView, id: int, input: TopicInput) {
    && after.id == before.id && after.rest == before.rest
    && (before.id != id ==> after == before)
    && (before.id == id && input.name.Some? ==> after.name == input.name.value)
    && (before.id == id && input.description.Some? ==> after.description == input.description.value)
    && (before.id == id && input.threshold.Some? ==> after.threshold == input.threshold.value)
    && (before.id == id && input.active.Some? ==> after.active == input.active.value)
    && (input == TopicInput(None, None, None, None) ==> after == before)
  }

  predicate ShowsToggle(after: FeedView, before: FeedView, id: int, subscribed: bool) {
    after == before.(subscribed := if before.id == id then subscribed else before.subscribed)
  }
}
