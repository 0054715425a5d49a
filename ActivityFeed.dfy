/** The activity feed's own list (src/components/ActivityFeed.tsx): each
    simulated activity is put in front and the list is cut to 20 entries. */
module ActivityFeed {

  import opened Seqs
  import opened TradingTypes
  import TradingStore

  /** The feed shows the 20 most recent activities. */
  const FeedLimit: nat := 20

  class Feed {
    var activities: seq<Activity>

    /** `initial` is the feed's seed list, kept as given. */
    constructor (initial: seq<Activity>)
      ensures activities == initial
    {
      activities := initial;
    }

    /** One interval tick with the activity it generated. */
    method Push(activity: Activity)
      modifies this
      ensures activities == TradingStore.CappedPrepend(old(activities), activity, FeedLimit)
      ensures activities[0] == activity && |activities| == Min(|old(activities)| + 1, FeedLimit)
    {
      activities := TradingStore.CappedPrepend(activities, activity, FeedLimit);
    }
  }
}
