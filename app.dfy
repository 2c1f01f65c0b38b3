/**
 The screen's data state: the call list, the talkgroup directory and the two spinner
 flags, with the handlers that overwrite them when a fetch completes.
 */
module App {
  import opened Records
  import Json
  import Feed
  import Directory
  import Labels

  class Screen {
    /** The call list, wholesale the value the last fetch produced. */
    var calls: Json.Value
    var talkgroups: map<int, Talkgroup>
    var loading: bool
    var refreshing: bool

    /** An empty list and directory, the first-load spinner on, no refresh in progress. */
    constructor ()
      ensures calls == Feed.Empty && talkgroups == map[]
      ensures loading && !refreshing
    {
      calls := Feed.Empty;
      talkgroups := map[];
      loading := true;
      refreshing := false;
    }

    /** The directory loader: a delivered set of records replaces the directory with a
        freshly built one; a failure leaves the directory as it was. Nothing else changes. */
    method FetchTalkgroups(response: Directory.Response)
      modifies this`talkgroups
      ensures response.Failed? ==> talkgroups == old(talkgroups)
      ensures response.Records? ==> talkgroups == Directory.Index(response.values)
    {
      match response
      case Failed =>
      case Records(values) =>
        var tgMap := Directory.Build(values);
        talkgroups := tgMap;
    }

    /** One completed call-feed fetch: the list is replaced by the fetch's outcome
        whatever it held before, and both spinner flags are cleared. */
    method FetchCalls(response: Feed.Response)
      modifies this`calls, this`loading, this`refreshing
      ensures calls == Feed.FeedOutcome(response)
      ensures !loading && !refreshing
    {
      calls := Feed.FeedOutcome(response);
      loading := false;
      refreshing := false;
    }

    /** Pull-to-refresh: the refresh flag is raised, then the same fetch runs to completion. */
    method OnRefresh(response: Feed.Response)
      modifies this`calls, this`loading, this`refreshing
      ensures calls == Feed.FeedOutcome(response)
      ensures !loading && !refreshing
    {
      refreshing := true;
      FetchCalls(response);
    }

    /** The first fetch and the interval's later ticks, completing one after another:
        the last response alone decides the list, so an unchanged response polled again
        leaves the list as it was. */
    method Poll(responses: seq<Feed.Response>)
      modifies this`calls, this`loading, this`refreshing
      ensures responses == [] ==> calls == old(calls) && loading == old(loading) && refreshing == old(refreshing)
      ensures responses != [] ==> calls == Feed.FeedOutcome(responses[|responses| - 1]) && !loading && !refreshing
    {
      var i := 0;
      while i < |responses|
        invariant 0 <= i <= |responses|
        invariant i == 0 ==> calls == old(calls) && loading == old(loading) && refreshing == old(refreshing)
        invariant i > 0 ==> calls == Feed.FeedOutcome(responses[i - 1]) && !loading && !refreshing
      {
        FetchCalls(responses[i]);
        i := i + 1;
      }
    }

    /** The label under a row's tag, read from the current directory. */
    function TalkgroupLabel(num: int): (r: string)
      reads this
      ensures r == Labels.TalkgroupName(talkgroups, num)
      ensures r != ""
      ensures num !in talkgroups ==> r == Labels.FallbackName(num)
    {
      Labels.TalkgroupName(talkgroups, num)
    }
  }
}
