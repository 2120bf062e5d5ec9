# QQ music chat plugin: command state machine

This project models the command core of the `astrbot_plugin_qq_music` chat
plugin (`main.py`). The plugin answers two chat commands and keeps one piece
of state:

- `/点歌 <keyword>` (search). The command searches the music catalog, stores
  the hits for the conversation and replies with a numbered listing.
- `/播放 <index>` (play). The command picks one stored hit by its 1-based
  number and plays its song id.
- Plugin teardown empties the store.
- The state is `user_data`, a map from a per-conversation key to the last hit
  list found in that conversation.

Each handler is a pure function from (conversation, raw message, cache) to
(reply, new cache), in `MusicPlugin`. The catalog search is an oracle
`string -> SearchOutcome`, passed in by the caller. It stands for the
source's HTTP request plus JSON walk, and it returns either a hit list or a
failure. Replies are a `Reply` datatype. `ReplyText` gives the exact text of
each plain reply. The lemmas `ListingReplyText` and
`RangeMessageDeterminesCount` state what the listing and range texts contain.

Files:

- optional.dfy: the `Option` datatype.
- text.dfy: Python string behaviour used by the handlers. This covers
  `str.strip()` with Python's whitespace set, `str.replace(old, "", 1)`,
  ASCII `isdigit`, `int(...)`, `str(n)` and `"\n".join`.
- conversations.dfy: the conversation identity and its cache key.
- `music_plugin.dfy`: hits, replies, the listing, `SearchStep`, `PlayStep`
  and `Terminate`.
- `command_properties.dfy`: properties relating several handler calls.
- session.dfy: the plugin as a state machine over a sequence of commands,
  with its invariants.

Some behaviour is modelled exactly as the code does it, not as one might
expect:

- The emptiness check of `/点歌` looks at the raw message, before `"点歌"` is
  removed. A message that is only `"点歌"` therefore searches the catalog
  for the empty keyword.
- A hit without `title` or `artist` fails while the listing is built. The
  cache entry was already overwritten one line earlier. The reply is the
  generic search failure, but the new hits stay cached.
- `/播放` strips its message but does not remove `"播放"` from it.
  `CommandProperties.PlayWithCommandWordIsRejected` states what follows: a
  message that still starts with `"播放"` is never played.
- `"0"` passes the digit check and is then rejected by the range check.
  `"007"` selects hit 7, because `int` ignores leading zeros.
- The play handler reads the whole message text and never removes `"播放"`
  from it. Whether the platform hands `/播放 3` to the handler as `"3"` or as
  `"播放 3"` is outside this model. The lemmas about a play message equal to
  `str(k)` cover the first form. `PlayWithCommandWordIsRejected` covers the
  second.
- A group id of `""` stands for a falsy `get_group_id()`. In that case the
  key is the sender id alone.

## Model

| member | source | states |
|---|---|---|
| `Conversations.CacheKey` | main.py:16-18 | In a private chat the key is exactly the sender id. In a group chat it is the group id, then `_`, then the sender id. |
| `Conversations.CacheKeyInjective` | main.py:16-18 | With numeric ids, two conversations with the same key are the same conversation, so no two conversations share a cache entry. |
| `Conversations.CacheKeysCanCollide` | main.py:16-18 | Without numeric ids the key is not injective. A sender id containing `_` aliases a different group or a private chat. |
| `Text.TrimStartIsSuffix` | main.py:31 | Dropping leading whitespace keeps a suffix of the input. Every dropped character is whitespace, and the result does not start with whitespace. |
| `Text.TrimEndIsPrefix` | main.py:65 | Dropping trailing whitespace keeps a prefix of the input. Every dropped character is whitespace, and the result does not end with whitespace. |
| `Text.Strip` | main.py:31 | `strip()` returns a string no longer than its input, with no whitespace at either end. |
| `Text.StripIsPaddedSlice` | main.py:31 | What `strip()` keeps is a contiguous slice of the input with only whitespace on either side of it. |
| `Text.StripOfPadded` | main.py:65 | `strip()` of whitespace, then a trimmed string, then whitespace, gives exactly the trimmed string. So the slice above is unique. |
| `Text.StripIdempotent` | main.py:65 | Stripping twice gives the same result as stripping once. |
| `Text.StripKeepsFirst` | main.py:65 | A message starting with a non-whitespace character keeps that character first after `strip()`. |
| `Text.FindFrom` | main.py:31 | Returns the first occurrence of the pattern at or after a position, or proves there is none. |
| `Text.FindFirst` | main.py:31 | Returns the leftmost occurrence of the pattern, or proves it does not occur at all. |
| `Text.FirstOccurrenceIsFound` | main.py:31 | When the leftmost occurrence of the pattern is at i, `FindFirst` reports i. |
| `Text.RemoveFirst` | main.py:31 | `replace(pat, "", 1)` removes exactly the leftmost occurrence. Without an occurrence the string is unchanged. |
| `Text.RemoveFirstKeepsLaterOccurrence` | main.py:31 | Only the first occurrence is removed. A later non-overlapping occurrence survives, shifted left by the pattern length. |
| `Text.NatToString` | main.py:46 | `str(n)` is a non-empty digit string with no leading zero, except for `"0"` itself. |
| `Text.ParseNatToString` | main.py:70 | `int(str(n)) == n`. |
| `Text.NatToStringOfParse` | main.py:66-70 | For a canonical digit string s, `str(int(s)) == s`. |
| `Text.ParsePositive` | main.py:70-74 | A digit string not starting with `0` parses to at least 1. |
| `Text.LeadingZeroIgnored` | main.py:70 | `int("0" + s) == int(s)`. |
| `MusicPlugin.SearchKeyword` | main.py:31 | The keyword is the message with its first `点歌` removed, then stripped. Without `点歌` it is just the stripped message. |
| `MusicPlugin.NumberedLines` | main.py:45-46 | Line i is `"{first+i}. {title} - {artist}"` for hit i, in hit order. |
| `MusicPlugin.Listing` | main.py:44-47 | For n hits the listing has n+2 lines. The first is the header and the last is the trailer. Line k is `"{k}. {title} - {artist}"` for hit k-1. |
| `Text.Join` | main.py:49 | `sep.join(lines)` of no lines is empty. Otherwise its length is the summed line lengths plus one separator per gap, and it begins with the first line. |
| `Text.JoinAppend` | main.py:49 | Joining two non-empty runs of lines equals joining each and putting exactly one separator between them. |
| `Text.JoinFramed` | main.py:44-49 | A first and a last line around a non-empty body are each set off from it by one separator. |
| `Text.JoinFramedStartsWith` | main.py:44-49 | The joined text of such a frame begins with the first line, a separator and the body's first line. |
| `MusicPlugin.ListingReplyText` | main.py:44-49 | The text sent for a non-empty listing is the header, a newline, the numbered lines joined by newlines, a newline and the trailer. The trailer's own leading newline leaves a blank line before the usage hint. |
| `MusicPlugin.ListingReplyTextStartsWithFirstHit` | main.py:44-49 | The listing's text opens with the header and, on the next line, `"1. {title} - {artist}"` of the first hit. |
| `MusicPlugin.RangeMessageDeterminesCount` | main.py:75 | Two range messages with the same text name the same count, so the text sent identifies n. |
| `MusicPlugin.HandleSearchResults` | main.py:34-53 | A failed search gives the generic failure and an empty hit list gives "no songs found", both with the cache unchanged. A non-empty hit list overwrites the conversation's entry. The reply is then the listing, or the generic failure if a hit lacks a title or artist. Each reply happens if and only if its condition holds. Other conversations' entries never change, and entries stay non-empty. |
| `MusicPlugin.SearchStep` | main.py:20-53 | The usage prompt is given if and only if the raw message is empty, and then the cache is unchanged. Otherwise the catalog is asked for the normalised keyword and its answer is handled as above. Other conversations' entries never change. |
| `MusicPlugin.PlayStep` | main.py:55-102 | The cache never changes. A missing entry gives "search first". A stripped message that is not a digit string gives "invalid index". A value outside 1..n gives the range message naming n. Otherwise hit k-1's id is played, or the generic failure is given when that hit has no id. Each reply happens if and only if its condition holds. |
| `MusicPlugin.Terminate` | main.py:104-106 | After teardown no key is in the cache. |
| `CommandProperties.NumberSpellingIsTrimmed` | main.py:65 | `strip()` leaves `str(k)` unchanged. |
| `CommandProperties.PlayNumber` | main.py:65-79 | A play message equal to `str(k)` selects hit k-1 when k is in 1..n, and gives the range message naming n otherwise. |
| `CommandProperties.ListingLineStartsWithNumber` | main.py:45-46 | Line k of a listing begins with `"k. "`. |
| `CommandProperties.LineStartsWithNumber` | main.py:46 | A listing line for number k begins with `"k. "`, whatever the title and artist. |
| `CommandProperties.ListedNumberPlaysListedHit` | main.py:40-79 | After a search answered with a listing, line k begins with `"k. "`, and a play message equal to `str(k)` selects the hit shown on that line. |
| `CommandProperties.PlayZeroIsOutOfRange` | main.py:70-76 | `"0"` is rejected by the range check with the message naming n. |
| `CommandProperties.PlayPastEndIsOutOfRange` | main.py:70-76 | n+1 is rejected with the message naming n. |
| `CommandProperties.PlayWithCommandWordIsRejected` | main.py:58-68 | A play message that still starts with `播放` gets "search first" or "invalid index", never a song. |
| `CommandProperties.SearchTwiceIsSearchOnce` | main.py:34-49 | Repeating a search with the same message and catalog changes neither the reply nor the cache. |
| `CommandProperties.SearchLastWriteWins` | main.py:40-41 | After a successful search, the conversation's entry is that hit list, whatever the previous search did. |
| `CommandProperties.SearchesOfDistinctConversationsCommute` | main.py:40-41 | Searches from conversations with different keys can run in either order with the same resulting cache. |
| `CommandProperties.PlayAfterTerminateAsksForSearch` | main.py:58-61 | After teardown every conversation is told to search first. |
| `CommandProperties.SearchKeywordExample` | main.py:31 | The keyword of `"点歌 七里香"` is `"七里香"`. |
| `Session.Step` | main.py:20-102 | A play leaves the cache unchanged. A search changes at most its own conversation's entry. Entries stay non-empty. |
| `Session.Run` | main.py:13-107 | Every chat command in a sequence gets exactly one reply, and a teardown gets none. |
| `Session.RunKeepsEntriesNonEmpty` | main.py:34-41 | Only non-empty hit lists are ever cached, across any command sequence. |
| `Session.RunLeavesUntouchedEntry` | main.py:40-41 | An entry changes only through a search from its own conversation or a teardown. |
| `Session.PlaysLeaveCacheAlone` | main.py:55-102 | Any sequence of plays leaves the cache unchanged. |

## Left out

- Audio download and transcoding: there is no such code in `main.py`, so nothing of it is modelled.
- `search` (main.py:109-114): an HTTP request plus a JSON path walk. It is replaced by the oracle parameter, whose `SearchFailed` covers every exception it can raise.
- `getSongUrl` and `getSongInfo` (main.py:117-129): placeholder mock data. `NowPlaying` carries only the chosen song id. The card's text, cover and button built from them (main.py:80-98) are not modelled.
- Platform glue: async generator yielding, the event object, `plain_result`/`card_result`, logging, decorators and config lookup (main.py:1-14). Replies are the `Reply` datatype instead.
- Exceptions: the two broad `except` blocks become `GenericFailure(handler)`. The modelled causes are a missing `title`, `artist` or `id` field. Other causes are not modelled, for example a catalog answer that is a non-empty non-list.
- MusicPlugin.PlayStep: every digit string parses. CPython 3.11 and later raises `ValueError` in `int()` for a string longer than 4300 digits (the default `sys.set_int_max_str_digits` limit), which the handler answers with the generic play failure (main.py:70, 100-102). The model answers such an index with the range message instead, because the limit is an interpreter setting and not part of the plugin.
- Text.IsDigits: digits are ASCII only. Python's `isdigit` also accepts other Unicode digits, which `int` then parses or rejects, and that is not modelled.
- MusicPlugin.SearchStep: a falsy non-list catalog answer such as `None` is covered only as an empty hit list.
- Concurrency: each command is one atomic transition. Concurrent invocations of the async handlers are not modelled.
- Conversations.CacheKeyInjective: holds only for numeric ids. The source does not restrict ids, and `CacheKeysCanCollide` shows the general case.
