/** The two chat commands of the music plugin and its teardown hook, each a
    pure transition from (message, cache) to (reply, new cache).

    - `/点歌 <keyword>` searches the catalog, caches the hits for the
      conversation and answers with a numbered listing (main.py:20-53).
    - `/播放 <index>` picks a cached hit by its 1-based number
      (main.py:55-102).
    - teardown empties the cache (main.py:104-107).

    The catalog search (an HTTP request and a walk through the JSON answer)
    is an oracle passed in by the caller. */
module MusicPlugin {

  import opened Optional
  import opened Text
  import opened Conversations

  /** Song ids are the integers the catalog hands out. */
  type SongId = int

  /** One search hit, a JSON object of the catalog's answer. Each field the
      handlers read may be absent, in which case reading it raises. */
  datatype Hit = Hit(id: Option<SongId>, title: Option<string>, artist: Option<string>)

  /** What the catalog search returns: a (possibly empty) ordered list of hits,
      or a failure (network error, malformed JSON, missing path). */
  datatype SearchOutcome = Found(hits: seq<Hit>) | SearchFailed

  /** Per-conversation search results, keyed by `CacheKey`. */
  type Cache = map<string, seq<Hit>>

  /** Which handler's broad exception handler produced a failure reply. */
  datatype Handler = SearchHandler | PlayHandler

  /** The message a handler sends back. */
  datatype Reply =
    | UsagePrompt                     // empty search message
    | NoSongsFound                    // the search found nothing
    | SongList(lines: seq<string>)    // numbered listing, joined with newlines
    | SearchFirst                     // /播放 before any /点歌
    | InvalidIndex                    // /播放 argument is not a digit string
    | IndexOutOfRange(count: nat)     // number outside 1..count
    | NowPlaying(songId: SongId)      // the card for the chosen song
    | GenericFailure(handler: Handler)

  /** The outcome of handling one command. */
  datatype Transition = Transition(reply: Reply, cache: Cache)

  const SearchCommandWord := "点歌"
  const ListingHeader := "找到以下歌曲："
  const ListingTrailer := "\n发送 /播放 + 序号 播放歌曲（例如：/播放 1）"

  /** The text of a plain (non-card) reply. */
  function ReplyText(r: Reply): string
    requires !r.NowPlaying?
  {
    match r
    case UsagePrompt => "请输入搜索关键词，例如：/点歌 七里香"
    case NoSongsFound => "没有找到相关歌曲"
    case SongList(lines) => Join(lines, "\n")
    case SearchFirst => "请先使用 /点歌 搜索歌曲"
    case InvalidIndex => "请输入有效的歌曲序号"
    case IndexOutOfRange(n) => "序号无效，请输入1~" + NatToString(n) + "之间的数字"
    case GenericFailure(SearchHandler) => "歌曲搜索失败，请稍后再试"
    case GenericFailure(PlayHandler) => "歌曲播放失败，请稍后再试"
  }

  // ---------------------------------------------------------------------
  // /点歌
  // ---------------------------------------------------------------------

  /** The search keyword: the first "点歌" removed, then surrounding
      whitespace stripped. */
  function SearchKeyword(message: string): (keyword: string)
    ensures Trimmed(keyword)
    ensures (forall j :: 0 <= j <= |message| ==> !OccursAt(message, SearchCommandWord, j)) ==>
      keyword == Strip(message)
    ensures forall i :: OccursAt(message, SearchCommandWord, i) && (forall j :: 0 <= j < i ==> !OccursAt(message, SearchCommandWord, j)) ==>
      keyword == Strip(message[..i] + message[i + 2..])
  {
    Strip(RemoveFirst(message, SearchCommandWord))
  }

  /** A hit can be listed when it has both a title and an artist. */
  predicate Listable(h: Hit) {
    h.title.Some? && h.artist.Some?
  }

  predicate AllListable(hits: seq<Hit>) {
    forall i :: 0 <= i < |hits| ==> Listable(hits[i])
  }

  /** Line `k` of the listing: "{k}. {title} - {artist}". */
  function ListingLine(k: nat, h: Hit): string
    requires Listable(h)
  {
    NatToString(k) + ". " + h.title.value + " - " + h.artist.value
  }

  /** The numbered lines for `hits`, numbering from `first`. */
  function NumberedLines(hits: seq<Hit>, first: nat): (lines: seq<string>)
    requires AllListable(hits)
    ensures |lines| == |hits|
    ensures forall i :: 0 <= i < |hits| ==> lines[i] == ListingLine(first + i, hits[i])
  {
    if |hits| == 0 then []
    else [ListingLine(first, hits[0])] + NumberedLines(hits[1..], first + 1)
  }

  /** The search reply for `n` hits: a header, the hits numbered 1..n in the
      order the catalog returned them, then the usage trailer. */
  function Listing(hits: seq<Hit>): (lines: seq<string>)
    requires AllListable(hits)
    ensures |lines| == |hits| + 2
    ensures lines[0] == ListingHeader && lines[|hits| + 1] == ListingTrailer
    ensures forall i :: 0 <= i < |hits| ==> lines[i + 1] == ListingLine(i + 1, hits[i])
  {
    [ListingHeader] + NumberedLines(hits, 1) + [ListingTrailer]
  }

  /** The text sent for a listing: the header on the first line, one line per
      hit in catalog order starting with hit 1, and the trailer, whose own
      leading newline leaves a blank line before the usage hint. */
  lemma ListingReplyText(hits: seq<Hit>)
    requires AllListable(hits) && |hits| > 0
    ensures ReplyText(SongList(Listing(hits))) ==
      ListingHeader + "\n" + Join(NumberedLines(hits, 1), "\n") + "\n" + ListingTrailer
  {
    JoinFramed(ListingHeader, NumberedLines(hits, 1), ListingTrailer, "\n");
  }

  /** The listing's text opens with the header and, on the next line, hit 1. */
  lemma ListingReplyTextStartsWithFirstHit(hits: seq<Hit>)
    requires AllListable(hits) && |hits| > 0
    ensures var first := ListingHeader + "\n" + ListingLine(1, hits[0]);
      |first| <= |ReplyText(SongList(Listing(hits)))| &&
      ReplyText(SongList(Listing(hits)))[..|first|] == first
  {
    JoinFramedStartsWith(ListingHeader, NumberedLines(hits, 1), ListingTrailer, "\n");
  }

  /** The range message names the count it was given: two range messages
      with the same text name the same count. */
  lemma RangeMessageDeterminesCount(a: nat, b: nat)
    requires ReplyText(IndexOutOfRange(a)) == ReplyText(IndexOutOfRange(b))
    ensures a == b
  {
    var pre := "序号无效，请输入1~";
    var post := "之间的数字";
    var sa := NatToString(a);
    var sb := NatToString(b);
    var ta := ReplyText(IndexOutOfRange(a));
    assert ta == pre + sa + post;
    assert |sa| == |sb|;
    assert sa == ta[|pre|..|pre| + |sa|];
    assert sb == ta[|pre|..|pre| + |sb|];
    ParseNatToString(a);
    ParseNatToString(b);
  }

  /** Every cached entry is a non-empty hit list. */
  predicate EntriesNonEmpty(cache: Cache) {
    forall k :: k in cache ==> |cache[k]| > 0
  }

  /** The cache entries of every key but `key` agree in `a` and `b`. */
  predicate SameElsewhere(a: Cache, b: Cache, key: string) {
    && (forall k :: k in a && k != key ==> k in b && b[k] == a[k])
    && (forall k :: k in b && k != key ==> k in a)
  }

  /** Handles the catalog's answer to a `/点歌` search from `who`.
      - A failed search gets the generic failure reply and an empty hit
        list gets "no songs found"; the cache is unchanged.
      - A non-empty hit list replaces the conversation's entry (last write
        wins) and is answered with the listing. If some hit lacks a title
        or an artist, the listing cannot be built and the reply is the
        generic failure, but the entry has already been replaced.
      No other conversation's entry is touched. */
  function HandleSearchResults(who: Conversation, cache: Cache, outcome: SearchOutcome): (t: Transition)
    ensures t.reply != UsagePrompt
    ensures t.reply == NoSongsFound <==> outcome == Found([])
    ensures outcome.SearchFailed? || outcome == Found([]) ==> t.cache == cache
    ensures outcome.Found? && |outcome.hits| > 0 ==> t.cache == cache[CacheKey(who) := outcome.hits]
    ensures t.reply.SongList? <==> outcome.Found? && |outcome.hits| > 0 && AllListable(outcome.hits)
    ensures t.reply.SongList? ==> t.reply.lines == Listing(outcome.hits)
    ensures t.reply == GenericFailure(SearchHandler) <==>
      outcome.SearchFailed? || (|outcome.hits| > 0 && !AllListable(outcome.hits))
    ensures SameElsewhere(cache, t.cache, CacheKey(who))
    ensures EntriesNonEmpty(cache) ==> EntriesNonEmpty(t.cache)
  {
    match outcome
    case SearchFailed => Transition(GenericFailure(SearchHandler), cache)
    case Found(hits) =>
      if |hits| == 0 then Transition(NoSongsFound, cache)
      else
        var cache' := cache[CacheKey(who) := hits];
        if AllListable(hits) then Transition(SongList(Listing(hits)), cache')
        else Transition(GenericFailure(SearchHandler), cache')
  }

  /** Handles `/点歌` with the raw message `message` from conversation `who`.
      An empty message gets the usage prompt and nothing is searched; the
      emptiness test is on the raw message, before the command word is
      removed. Otherwise the catalog is asked for `SearchKeyword(message)`
      and its answer is handled by `HandleSearchResults`. */
  function SearchStep(who: Conversation, message: string, cache: Cache, search: string -> SearchOutcome): (t: Transition)
    ensures t.reply == UsagePrompt <==> message == ""
    ensures message == "" ==> t.cache == cache
    ensures message != "" ==> t == HandleSearchResults(who, cache, search(SearchKeyword(message)))
    ensures SameElsewhere(cache, t.cache, CacheKey(who))
    ensures EntriesNonEmpty(cache) ==> EntriesNonEmpty(t.cache)
  {
    if message == "" then Transition(UsagePrompt, cache)
    else HandleSearchResults(who, cache, search(SearchKeyword(message)))
  }

  // ---------------------------------------------------------------------
  // /播放
  // ---------------------------------------------------------------------

  /** Handles `/播放` with the raw message `message` from conversation `who`.
      The message is stripped but, unlike the search path, the command word
      is not removed from it.
      - No cached entry for the conversation: "search first".
      - The stripped message is not a digit string (the empty string
        included): "invalid index".
      - Its value k is outside 1..n for the n cached hits ("0" included):
        the range message naming n.
      - Otherwise hit k-1 is chosen and its id played; a hit without an id
        gets the generic failure reply.
      The cache is never modified. */
  function PlayStep(who: Conversation, message: string, cache: Cache): (t: Transition)
    ensures t.cache == cache
    ensures t.reply == SearchFirst <==> CacheKey(who) !in cache
    ensures CacheKey(who) in cache ==>
      var arg := Strip(message);
      var songs := cache[CacheKey(who)];
      && (t.reply == InvalidIndex <==> !IsDigits(arg))
      && (t.reply.IndexOutOfRange? <==> IsDigits(arg) && !(1 <= ParseDecimal(arg) <= |songs|))
      && (t.reply.IndexOutOfRange? ==> t.reply.count == |songs|)
      && (t.reply.NowPlaying? <==>
            IsDigits(arg) && 1 <= ParseDecimal(arg) <= |songs| && songs[ParseDecimal(arg) - 1].id.Some?)
      && (t.reply.NowPlaying? ==> t.reply.songId == songs[ParseDecimal(arg) - 1].id.value)
      && (t.reply == GenericFailure(PlayHandler) <==>
            IsDigits(arg) && 1 <= ParseDecimal(arg) <= |songs| && songs[ParseDecimal(arg) - 1].id.None?)
  {
    var key := CacheKey(who);
    if key !in cache then Transition(SearchFirst, cache)
    else
      var arg := Strip(message);
      if !IsDigits(arg) then Transition(InvalidIndex, cache)
      else
        var index := ParseDecimal(arg) - 1;
        var songs := cache[key];
        if index < 0 || index >= |songs| then Transition(IndexOutOfRange(|songs|), cache)
        else
          match songs[index].id
          case None => Transition(GenericFailure(PlayHandler), cache)
          case Some(id) => Transition(NowPlaying(id), cache)
  }

  // ---------------------------------------------------------------------
  // Teardown
  // ---------------------------------------------------------------------

  /** Plugin teardown: every conversation's entry is dropped. */
  function Terminate(cache: Cache): (r: Cache)
    ensures forall k :: k !in r
  {
    map[]
  }

}
