/** src/components/message-reactions.tsx: the row of reaction chips under a message
    and its emoji picker.  The component's one piece of state is whether the
    picker is shown; the add and remove callbacks are returned as the call the
    component makes. */
module MessageReactions {
  import opened Wrappers
  import opened Seqs

  /** One chip: an emoji, its count and who reacted with it. */
  datatype Reaction = Reaction(emoji: string, count: int, userIds: seq<string>)

  /** The callback a handler invokes, with its arguments. */
  datatype ReactionCall = Add(messageId: string, emoji: string) | Remove(messageId: string, emoji: string)

  /** `r => r.emoji === emoji`. */
  function HasEmoji(emoji: string): Reaction -> bool {
    (r: Reaction) => r.emoji == emoji
  }

  /** A chip is highlighted exactly when the current user is among its reactors (line 53). */
  predicate Highlighted(r: Reaction, currentUserId: string) {
    currentUserId in r.userIds
  }

  /** `handleReactionClick`'s decision: remove when the first chip with that emoji
      lists the current user, add otherwise. */
  function ClickAction(reactions: seq<Reaction>, currentUserId: string, messageId: string, emoji: string): (c: ReactionCall)
    ensures c.messageId == messageId && c.emoji == emoji
    ensures c.Remove? <==> exists i | 0 <= i < |reactions| ::
      && reactions[i].emoji == emoji
      && currentUserId in reactions[i].userIds
      && forall k | 0 <= k < i :: reactions[k].emoji != emoji
    ensures (forall r | r in reactions :: r.emoji != emoji) ==> c.Add?
  {
    assert forall i | 0 <= i < |reactions| && reactions[i].emoji == emoji && (forall k | 0 <= k < i :: reactions[k].emoji != emoji) ::
      FindFirst(reactions, HasEmoji(emoji)) == Some(reactions[i]) by {
      forall i | 0 <= i < |reactions| && reactions[i].emoji == emoji && (forall k | 0 <= k < i :: reactions[k].emoji != emoji)
        ensures FindFirst(reactions, HasEmoji(emoji)) == Some(reactions[i])
      {
        FirstMatch(reactions, emoji, i);
      }
    }
    var found := FindFirst(reactions, HasEmoji(emoji));
    if found.Some? && currentUserId in found.value.userIds then Remove(messageId, emoji)
    else Add(messageId, emoji)
  }

  /** The chip `find` returns is the one at the first index with that emoji. */
  lemma FirstMatch(reactions: seq<Reaction>, emoji: string, i: nat)
    requires i < |reactions| && reactions[i].emoji == emoji
    requires forall k | 0 <= k < i :: reactions[k].emoji != emoji
    ensures FindFirst(reactions, HasEmoji(emoji)) == Some(reactions[i])
  {
    assert reactions[i] in reactions;
    var found := FindFirst(reactions, HasEmoji(emoji));
    var j :| 0 <= j < |reactions| && reactions[j] == found.value && forall k | 0 <= k < j :: !HasEmoji(emoji)(reactions[k]);
    if j < i {
      assert reactions[j].emoji != emoji;
    }
  }

  /** Clicking a chip whose emoji no earlier chip carries removes exactly when
      that chip is drawn highlighted, and adds otherwise: what the button shows
      is what the click does. */
  lemma ClickMatchesHighlight(reactions: seq<Reaction>, me: string, messageId: string, k: nat)
    requires k < |reactions|
    requires forall j | 0 <= j < k :: reactions[j].emoji != reactions[k].emoji
    ensures ClickAction(reactions, me, messageId, reactions[k].emoji).Remove? <==> Highlighted(reactions[k], me)
    ensures !Highlighted(reactions[k], me) ==> ClickAction(reactions, me, messageId, reactions[k].emoji) == Add(messageId, reactions[k].emoji)
  {
  }

  /** When an earlier chip carries the same emoji, the click follows that earlier
      chip, whatever the clicked one shows. */
  lemma ClickFollowsFirstChip(reactions: seq<Reaction>, me: string, messageId: string, j: nat, k: nat)
    requires j < k < |reactions| && reactions[j].emoji == reactions[k].emoji
    requires forall i | 0 <= i < j :: reactions[i].emoji != reactions[j].emoji
    ensures ClickAction(reactions, me, messageId, reactions[k].emoji).Remove? <==> Highlighted(reactions[j], me)
  {
  }

  /** The component for one message: `showEmojiPicker` is its only state. */
  class ReactionBar {
    const messageId: string
    var showEmojiPicker: bool

    constructor (messageId: string)
      ensures this.messageId == messageId && !showEmojiPicker
    {
      this.messageId := messageId;
      showEmojiPicker := false;
    }

    /** A chip click: the call of `ClickAction`; the picker is untouched. */
    method HandleReactionClick(reactions: seq<Reaction>, currentUserId: string, emoji: string) returns (c: ReactionCall)
      ensures c == ClickAction(reactions, currentUserId, messageId, emoji)
    {
      var found := FindFirst(reactions, HasEmoji(emoji));
      if found.Some? && currentUserId in found.value.userIds {
        c := Remove(messageId, emoji);
      } else {
        c := Add(messageId, emoji);
      }
    }

    /** Picking an emoji always adds it and hides the picker. */
    method HandleEmojiSelect(emoji: string) returns (c: ReactionCall)
      modifies this
      ensures c == Add(messageId, emoji)
      ensures !showEmojiPicker
    {
      c := Add(messageId, emoji);
      showEmojiPicker := false;
    }

    /** The plus button. */
    method TogglePicker()
      modifies this
      ensures showEmojiPicker == !old(showEmojiPicker)
    {
      showEmojiPicker := !showEmojiPicker;
    }

    /** The picker's own close callback. */
    method ClosePicker()
      modifies this
      ensures !showEmojiPicker
    {
      showEmojiPicker := false;
    }

    /** `return null` at lines 46-48. */
    predicate RendersNothing(reactions: seq<Reaction>)
      reads this
    {
      |reactions| == 0 && !showEmojiPicker
    }
  }

  /** Opening the picker on a message without reactions makes the row appear;
      picking an emoji hides it again until a chip exists. */
  method PickerShowsEmptyRow(messageId: string, emoji: string) returns (c: ReactionCall)
    ensures c == Add(messageId, emoji)
  {
    var bar := new ReactionBar(messageId);
    assert bar.RendersNothing([]);
    bar.TogglePicker();
    assert !bar.RendersNothing([]);
    c := bar.HandleEmojiSelect(emoji);
    assert bar.RendersNothing([]);
  }
}
