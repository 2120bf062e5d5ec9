/** Who is talking: a chat event is identified by its sender and, in a group
    chat, by its group. The search-result cache is keyed by a string derived
    from the two (main.py:16-18). */
module Conversations {

  import opened Text

  /** The identity of a chat event. `group` is the empty string in a private
      chat: the source tests the group id for truthiness, and both a missing
      and an empty group id are falsy. */
  datatype Conversation = Conversation(group: string, sender: string)

  predicate IsGroupChat(c: Conversation) {
    c.group != ""
  }

  /** The cache key of a conversation: the sender id in a private chat, the
      group id, an underscore and the sender id in a group chat. */
  function CacheKey(c: Conversation): (key: string)
    ensures !IsGroupChat(c) ==> key == c.sender
    ensures IsGroupChat(c) ==> |key| == |c.group| + 1 + |c.sender|
    ensures IsGroupChat(c) ==> key[..|c.group|] == c.group && key[|c.group|] == '_' && key[|c.group| + 1..] == c.sender
  {
    if IsGroupChat(c) then c.group + "_" + c.sender else c.sender
  }

  /** Chat platforms hand out numeric ids: a non-empty group id and the sender
      id are strings of decimal digits. */
  predicate NumericIds(c: Conversation) {
    (c.group == "" || IsDigits(c.group)) && IsDigits(c.sender)
  }

  /** With numeric ids, distinct conversations never share a cache entry:
      the underscore can only be the separator. */
  lemma CacheKeyInjective(a: Conversation, b: Conversation)
    requires NumericIds(a) && NumericIds(b)
    requires CacheKey(a) == CacheKey(b)
    ensures a == b
  {
  }

  /** Without the numeric-id assumption the key is not injective: a sender
      id containing an underscore can alias a different group. */
  lemma CacheKeysCanCollide()
    ensures CacheKey(Conversation("1", "2_3")) == CacheKey(Conversation("1_2", "3"))
    ensures CacheKey(Conversation("", "1_2")) == CacheKey(Conversation("1", "2"))
  {
  }

}
