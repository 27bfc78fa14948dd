/**
 `UIMessageSnapshot`, a diffable-data-source snapshot with one section kind,
 and its two helpers. Items are kept in display order.
 */
module Snapshot {
  import opened MessageModel

  /** `ChatSection`: the chat has one section. */
  datatype ChatSection = Main

  datatype MessageSnapshot = MessageSnapshot(sections: seq<ChatSection>, items: seq<UIMessage>)

  const EmptySnapshot := MessageSnapshot([], [])

  /** `appendSections([section])`. */
  function AppendSection(s: MessageSnapshot, section: ChatSection): (r: MessageSnapshot)
    ensures r.sections == s.sections + [section] && r.items == s.items
  {
    s.(sections := s.sections + [section])
  }

  /** `appendItems(ms, toSection: .main)`; the snapshot must already have the section. */
  function AppendItems(s: MessageSnapshot, ms: seq<UIMessage>): (r: MessageSnapshot)
    requires Main in s.sections
    ensures r.sections == s.sections
    ensures |r.items| == |s.items| + |ms|
    ensures r.items[..|s.items|] == s.items && r.items[|s.items|..] == ms
  {
    s.(items := s.items + ms)
  }

  /** `ensureSectionExists(_:)`: adds the section only when there is none at all. */
  function EnsureSectionExists(s: MessageSnapshot, section: ChatSection): (r: MessageSnapshot)
    ensures s.sections == [] ==> r.sections == [section]
    ensures s.sections != [] ==> r.sections == s.sections
    ensures r.items == s.items
  {
    if s.sections == [] then AppendSection(s, section) else s
  }

  /** Ensuring the section twice is the same as ensuring it once. */
  lemma EnsureSectionExistsIdempotent(s: MessageSnapshot, section: ChatSection)
    ensures EnsureSectionExists(EnsureSectionExists(s, section), section) == EnsureSectionExists(s, section)
  {
  }

  /** Some item is a user or bot placeholder. */
  ghost predicate ContainsUserOrBotPlaceholder(items: seq<UIMessage>)
  {
    exists i :: 0 <= i < |items| && IsUserOrBotPlaceholder(items[i])
  }

  /** A front-to-back scan for a user or bot placeholder (`contains(where:)`). */
  function AnyUserOrBotPlaceholder(items: seq<UIMessage>): (r: bool)
    ensures r <==> ContainsUserOrBotPlaceholder(items)
  {
    if items == [] then false
    else if IsUserOrBotPlaceholder(items[0]) then true
    else
      var rest := AnyUserOrBotPlaceholder(items[1..]);
      assert forall i :: 1 <= i < |items| ==> items[i] == items[1..][i - 1];
      assert ContainsUserOrBotPlaceholder(items[1..]) ==> ContainsUserOrBotPlaceholder(items);
      rest
  }

  /** `hasUserOrBotPlaceholders()`. */
  function HasUserOrBotPlaceholders(s: MessageSnapshot): (r: bool)
    ensures r <==> exists i :: 0 <= i < |s.items| && IsUserOrBotPlaceholder(s.items[i])
  {
    AnyUserOrBotPlaceholder(s.items)
  }

  /** The snapshot `applyInitialSnapshot(messages:)` and `updateUI` build: one main section holding exactly `ms`. */
  function SnapshotOf(ms: seq<UIMessage>): (r: MessageSnapshot)
    ensures r.sections == [Main]
    ensures |r.items| == |ms| && forall i :: 0 <= i < |ms| ==> r.items[i] == ms[i]
  {
    AppendItems(AppendSection(EmptySnapshot, Main), ms)
  }
}
