/** Properties that relate several calls of the command handlers: the
    listing's numbering agrees with what `/播放` selects, the edge cases of
    the index check, last-write-wins on the cache and teardown. */
module CommandProperties {

  import opened Text
  import opened Conversations
  import opened MusicPlugin

  /** The spelling of a number has no surrounding whitespace. */
  lemma NumberSpellingIsTrimmed(n: nat)
    ensures Strip(NatToString(n)) == NatToString(n)
  {
    var s := NatToString(n);
    assert !IsSpace(s[0]) && !IsSpace(s[|s| - 1]);
    TrimmedIsFixedPoint(s);
  }

  /** `/播放` with the spelling of a number k: the k-th cached hit when k is
      in 1..n, the range message naming n otherwise. */
  lemma PlayNumber(who: Conversation, cache: Cache, k: nat)
    requires CacheKey(who) in cache
    ensures var songs := cache[CacheKey(who)];
      PlayStep(who, NatToString(k), cache).reply ==
        if 1 <= k <= |songs| then
          (if songs[k - 1].id.Some? then NowPlaying(songs[k - 1].id.value) else GenericFailure(PlayHandler))
        else IndexOutOfRange(|songs|)
  {
    var s := NatToString(k);
    NumberSpellingIsTrimmed(k);
    ParseNatToString(k);
    assert Strip(s) == s && IsDigits(s) && ParseDecimal(s) == k;
  }

  /** Line k of a listing begins with "k. ". */
  lemma ListingLineStartsWithNumber(hits: seq<Hit>, k: nat)
    requires AllListable(hits) && 1 <= k <= |hits|
    ensures var n := NatToString(k);
      |Listing(hits)[k]| >= |n| + 2 && Listing(hits)[k][..|n| + 2] == n + ". "
  {
    assert Listing(hits)[k] == ListingLine(k, hits[k - 1]);
    LineStartsWithNumber(k, hits[k - 1]);
  }

  /** A listing line for number k begins with "k. ". */
  lemma LineStartsWithNumber(k: nat, h: Hit)
    requires Listable(h)
    ensures var n := NatToString(k);
      |ListingLine(k, h)| >= |n| + 2 && ListingLine(k, h)[..|n| + 2] == n + ". "
  {
    var n := NatToString(k);
    var rest := h.title.value + " - " + h.artist.value;
    assert ListingLine(k, h) == n + ". " + rest;
    PrefixThrough(ListingLine(k, h), n, ". ", rest, 2);
  }

  /** The number printed in front of a listed hit is the number that plays
      it: after a search answered with a listing, line k of the listing
      begins with "k. " and `/播放 k` selects hit k-1 of the same list. */
  lemma ListedNumberPlaysListedHit(who: Conversation, cache: Cache, hits: seq<Hit>, k: nat)
    requires |hits| > 0 && AllListable(hits)
    requires 1 <= k <= |hits|
    ensures var t := HandleSearchResults(who, cache, Found(hits));
      && t.reply.SongList?
      && |t.reply.lines[k]| >= |NatToString(k)| + 2
      && t.reply.lines[k][..|NatToString(k)| + 2] == NatToString(k) + ". "
      && PlayStep(who, NatToString(k), t.cache).reply ==
           (if hits[k - 1].id.Some? then NowPlaying(hits[k - 1].id.value) else GenericFailure(PlayHandler))
  {
    var t := HandleSearchResults(who, cache, Found(hits));
    assert t.reply.lines == Listing(hits);
    assert t.cache[CacheKey(who)] == hits;
    ListingLineStartsWithNumber(hits, k);
    PlayNumber(who, t.cache, k);
  }

  /** "0" passes the digit check but is out of range. */
  lemma PlayZeroIsOutOfRange(who: Conversation, cache: Cache)
    requires CacheKey(who) in cache
    ensures PlayStep(who, "0", cache).reply == IndexOutOfRange(|cache[CacheKey(who)]|)
  {
    PlayNumber(who, cache, 0);
  }

  /** The first number past the end of the list is out of range. */
  lemma PlayPastEndIsOutOfRange(who: Conversation, cache: Cache)
    requires CacheKey(who) in cache
    ensures var n := |cache[CacheKey(who)]|;
      PlayStep(who, NatToString(n + 1), cache).reply == IndexOutOfRange(n)
  {
    PlayNumber(who, cache, |cache[CacheKey(who)]| + 1);
  }

  /** The play handler does not remove its command word: a message that
      still begins with "播放" never reaches the index check. */
  lemma PlayWithCommandWordIsRejected(who: Conversation, message: string, cache: Cache)
    requires |message| >= 2 && message[..2] == "播放"
    ensures PlayStep(who, message, cache).reply in {SearchFirst, InvalidIndex}
  {
    assert message[0] == '播';
    StripKeepsFirst(message);
  }

  /** Searching twice in a row with the same message and catalog ends in the
      same reply and cache as searching once. */
  lemma SearchTwiceIsSearchOnce(who: Conversation, message: string, cache: Cache, search: string -> SearchOutcome)
    ensures var once := SearchStep(who, message, cache, search);
      SearchStep(who, message, once.cache, search) == once
  {
  }

  /** Last write wins: after a second successful search from the same
      conversation the entry holds the second hit list, whatever happened
      before. */
  lemma SearchLastWriteWins(who: Conversation, cache: Cache, first: SearchOutcome, hits: seq<Hit>)
    requires |hits| > 0
    ensures var c1 := HandleSearchResults(who, cache, first).cache;
      HandleSearchResults(who, c1, Found(hits)).cache[CacheKey(who)] == hits
  {
  }

  /** Searches from conversations with different keys commute on the cache. */
  lemma SearchesOfDistinctConversationsCommute(a: Conversation, ma: string, sa: string -> SearchOutcome,
                                               b: Conversation, mb: string, sb: string -> SearchOutcome,
                                               cache: Cache)
    requires CacheKey(a) != CacheKey(b)
    ensures SearchStep(b, mb, SearchStep(a, ma, cache, sa).cache, sb).cache ==
            SearchStep(a, ma, SearchStep(b, mb, cache, sb).cache, sa).cache
  {
  }

  /** After teardown every conversation has to search again. */
  lemma PlayAfterTerminateAsksForSearch(who: Conversation, message: string, cache: Cache)
    ensures PlayStep(who, message, Terminate(cache)).reply == SearchFirst
  {
  }

  /** The keyword of "点歌 七里香" is "七里香". */
  lemma SearchKeywordExample()
    ensures SearchKeyword("点歌 七里香") == "七里香"
  {
    var m := "点歌 七里香";
    assert OccursAt(m, SearchCommandWord, 0);
    assert RemoveFirst(m, SearchCommandWord) == " 七里香" by {
      assert m[..0] + m[2..] == " 七里香";
    }
    assert Strip(" 七里香") == "七里香" by {
      StripOfPadded(" ", "七里香", "");
      assert " " + "七里香" + "" == " 七里香";
    }
  }

}
