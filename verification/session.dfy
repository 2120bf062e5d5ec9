/** The plugin as a state machine: its only state is the search-result
    cache (main.py:13), and each command is handled as one atomic step. */
module Session {

  import opened Conversations
  import opened MusicPlugin

  /** An incoming event: a `/点歌` or `/播放` command from a conversation, or
      the plugin's teardown. A search carries the catalog oracle in force
      when it runs, so the catalog may answer differently over time. */
  datatype Command =
    | Search(who: Conversation, message: string, catalog: string -> SearchOutcome)
    | Play(who: Conversation, message: string)
    | Teardown

  /** The replies to a sequence of commands and the cache they leave. */
  datatype Trace = Trace(replies: seq<Reply>, cache: Cache)

  /** Handles one chat command: only a search can change the cache, and only
      under the key of the conversation that sent it. */
  function Step(cache: Cache, cmd: Command): (t: Transition)
    requires !cmd.Teardown?
    ensures cmd.Play? ==> t.cache == cache
    ensures cmd.Search? ==> SameElsewhere(cache, t.cache, CacheKey(cmd.who))
    ensures EntriesNonEmpty(cache) ==> EntriesNonEmpty(t.cache)
  {
    match cmd
    case Search(who, message, catalog) => SearchStep(who, message, cache, catalog)
    case Play(who, message) => PlayStep(who, message, cache)
  }

  /** The cache after `cmd`. */
  function Next(cache: Cache, cmd: Command): Cache {
    if cmd.Teardown? then Terminate(cache) else Step(cache, cmd).cache
  }

  /** Handles the commands in order: every chat command gets one reply,
      teardown sends none. */
  function Run(cache: Cache, cmds: seq<Command>): (trace: Trace)
    ensures |trace.replies| == |cmds| - Teardowns(cmds)
    decreases |cmds|
  {
    if |cmds| == 0 then Trace([], cache)
    else
      var rest := Run(Next(cache, cmds[0]), cmds[1..]);
      if cmds[0].Teardown? then rest
      else Trace([Step(cache, cmds[0]).reply] + rest.replies, rest.cache)
  }

  /** The number of teardowns among `cmds`. */
  function Teardowns(cmds: seq<Command>): (n: nat)
    ensures n <= |cmds|
  {
    if |cmds| == 0 then 0
    else (if cmds[0].Teardown? then 1 else 0) + Teardowns(cmds[1..])
  }

  /** Only successful searches write the cache, and they write non-empty
      hit lists: every entry in the cache is always non-empty, so the range
      message of `/播放` always names at least 1. */
  lemma {:induction false} RunKeepsEntriesNonEmpty(cache: Cache, cmds: seq<Command>)
    requires EntriesNonEmpty(cache)
    ensures EntriesNonEmpty(Run(cache, cmds).cache)
    decreases |cmds|
  {
    if |cmds| > 0 {
      RunKeepsEntriesNonEmpty(Next(cache, cmds[0]), cmds[1..]);
    }
  }

  /** `cmd` may write the cache entry under `key`: a search from a
      conversation with that key, or a teardown. */
  predicate Touches(cmd: Command, key: string) {
    cmd.Teardown? || (cmd.Search? && CacheKey(cmd.who) == key)
  }

  /** Conversations are isolated: an entry changes only through a search from
      its own conversation or a teardown. Plays and other conversations'
      searches leave it exactly as it was. */
  lemma {:induction false} RunLeavesUntouchedEntry(cache: Cache, cmds: seq<Command>, key: string)
    requires forall i :: 0 <= i < |cmds| ==> !Touches(cmds[i], key)
    ensures key in Run(cache, cmds).cache <==> key in cache
    ensures key in cache ==> Run(cache, cmds).cache[key] == cache[key]
    decreases |cmds|
  {
    if |cmds| > 0 {
      assert !Touches(cmds[0], key);
      var next := Next(cache, cmds[0]);
      assert key in next <==> key in cache;
      assert key in cache ==> next[key] == cache[key];
      assert forall i :: 0 <= i < |cmds[1..]| ==> !Touches(cmds[1..][i], key) by {
        forall i | 0 <= i < |cmds[1..]|
          ensures !Touches(cmds[1..][i], key)
        {
          assert cmds[1..][i] == cmds[i + 1];
        }
      }
      RunLeavesUntouchedEntry(next, cmds[1..], key);
    }
  }

  /** Plays never change the state: a run of plays only produces replies. */
  lemma {:induction false} PlaysLeaveCacheAlone(cache: Cache, cmds: seq<Command>)
    requires forall i :: 0 <= i < |cmds| ==> cmds[i].Play?
    ensures Run(cache, cmds).cache == cache
    decreases |cmds|
  {
    if |cmds| > 0 {
      assert forall i :: 0 <= i < |cmds[1..]| ==> cmds[1..][i].Play? by {
        forall i | 0 <= i < |cmds[1..]|
          ensures cmds[1..][i].Play?
        {
          assert cmds[1..][i] == cmds[i + 1];
        }
      }
      PlaysLeaveCacheAlone(cache, cmds[1..]);
    }
  }

}
