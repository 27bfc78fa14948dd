/**
 `ChatBotMessageCell.configure(with:)` on iOS and macOS. A bot cell shows
 the message text, animates the "Bot is typing" placeholder, or shows the
 text and pulses when a finished update arrives. The only state the cell
 keeps across configurations is whether the placeholder is animating.
 Drawing and timing are reduced to the effects they have.
 */
module BotCell {
  import opened MessageModel

  /** What `configure` does to the cell, in order. */
  datatype CellEffect =
    | ResetLabelAnimation   // remove running animations, alpha back to 1.0
    | ShowMessageText       // the label shows the message's attributed text
    | ShowTypingIndicator   // the label shows "Bot is typing..." with its symbol
    | StartPlaceholderFade  // the placeholder alpha fade (repeating on iOS, one-shot on macOS)
    | Pulse                 // `animatePulse()`

  datatype CellState = CellState(isAnimatingPlaceholder: bool)

  datatype Configured = Configured(cell: CellState, effects: seq<CellEffect>)

  /** The three branches of `configure`, in the order `configure` considers them. */
  datatype Branch = EmptyBotHistory | BotPlaceholder | NormalMessage

  /**
   `isEmptyBotHistory(message:)`. `isBotWaiting` is computed by `UIMessage`,
   which is not part of this model, so it enters as a flag.
   */
  function IsEmptyBotHistory(m: UIMessage, isBotWaiting: bool): (b: bool)
    ensures b ==> isBotWaiting
    ensures b <==> m.origin == History && isBotWaiting
  {
    m.origin == History && isBotWaiting
  }

  /** `shouldAnimatePlaceholder(for:)`. */
  function ShouldAnimatePlaceholder(m: UIMessage, isBotWaiting: bool): (b: bool)
    ensures b ==> isBotWaiting
    ensures b <==> m.messageType == Placeholder(ForBot) && isBotWaiting
  {
    m.messageType == Placeholder(ForBot) && isBotWaiting
  }

  /** The branch `configure` takes: the history check comes before the placeholder check. */
  function BranchFor(m: UIMessage, isBotWaiting: bool): (b: Branch)
    ensures b == EmptyBotHistory <==> m.origin == History && isBotWaiting
    ensures b == BotPlaceholder <==> m.origin != History && m.messageType == Placeholder(ForBot) && isBotWaiting
    ensures b == NormalMessage <==> !isBotWaiting || (m.origin != History && m.messageType != Placeholder(ForBot))
  {
    if IsEmptyBotHistory(m, isBotWaiting) then EmptyBotHistory
    else if ShouldAnimatePlaceholder(m, isBotWaiting) then BotPlaceholder
    else NormalMessage
  }

  /** A normal message pulses when it is a finished update item. */
  predicate PulsesFor(m: UIMessage)
  {
    m.isFinished && m.origin == UpdateItem
  }

  /** `handlePlaceholderAnimation()`: starts the placeholder only if it is not already running. */
  function HandlePlaceholderAnimation(c: CellState): (r: Configured)
    ensures r.cell.isAnimatingPlaceholder
    ensures c.isAnimatingPlaceholder ==> r.effects == []
    ensures !c.isAnimatingPlaceholder ==> r.effects == [ShowTypingIndicator, StartPlaceholderFade]
  {
    if c.isAnimatingPlaceholder then Configured(c, [])
    else Configured(CellState(true), [ShowTypingIndicator, StartPlaceholderFade])
  }

  /** Starting the placeholder twice is the same as starting it once. */
  lemma HandlePlaceholderAnimationIdempotent(c: CellState)
    ensures HandlePlaceholderAnimation(HandlePlaceholderAnimation(c).cell) == Configured(HandlePlaceholderAnimation(c).cell, [])
  {
  }

  /** The iOS `stopPlaceholderAnimation()`: only the flag changes. */
  function IOSStopPlaceholderAnimation(c: CellState): (r: Configured)
    ensures !r.cell.isAnimatingPlaceholder && r.effects == []
  {
    Configured(CellState(false), [])
  }

  /** The macOS `stopPlaceholderAnimation()`: clears the flag and resets the label's animation and alpha. */
  function MacStopPlaceholderAnimation(c: CellState): (r: Configured)
    ensures !r.cell.isAnimatingPlaceholder && r.effects == [ResetLabelAnimation]
  {
    Configured(CellState(false), [ResetLabelAnimation])
  }

  function PulseEffects(m: UIMessage): (e: seq<CellEffect>)
    ensures Pulse in e <==> PulsesFor(m)
  {
    if PulsesFor(m) then [Pulse] else []
  }

  /** iOS `configure(with:)`. */
  function IOSConfigure(c: CellState, m: UIMessage, isBotWaiting: bool): (r: Configured)
    ensures |r.effects| >= 1 && r.effects[0] == ResetLabelAnimation
    ensures BranchFor(m, isBotWaiting) == EmptyBotHistory ==> r == Configured(c, [ResetLabelAnimation, ShowMessageText])
    ensures BranchFor(m, isBotWaiting) == BotPlaceholder ==> r.cell.isAnimatingPlaceholder && ShowMessageText !in r.effects
    ensures BranchFor(m, isBotWaiting) == NormalMessage ==> !r.cell.isAnimatingPlaceholder && ShowMessageText in r.effects
    ensures Pulse in r.effects <==> BranchFor(m, isBotWaiting) == NormalMessage && PulsesFor(m)
    ensures ShowTypingIndicator in r.effects <==> BranchFor(m, isBotWaiting) == BotPlaceholder && !c.isAnimatingPlaceholder
    ensures StartPlaceholderFade in r.effects <==> BranchFor(m, isBotWaiting) == BotPlaceholder && !c.isAnimatingPlaceholder
  {
    match BranchFor(m, isBotWaiting)
    case EmptyBotHistory => Configured(c, [ResetLabelAnimation, ShowMessageText])
    case BotPlaceholder =>
      var started := HandlePlaceholderAnimation(c);
      Configured(started.cell, [ResetLabelAnimation] + started.effects)
    case NormalMessage =>
      var stopped := IOSStopPlaceholderAnimation(c);
      Configured(stopped.cell, [ResetLabelAnimation] + stopped.effects + [ShowMessageText] + PulseEffects(m))
  }

  /** macOS `configure(with:)`. */
  function MacConfigure(c: CellState, m: UIMessage, isBotWaiting: bool): (r: Configured)
    ensures |r.effects| >= 1 && r.effects[0] == ResetLabelAnimation
    ensures BranchFor(m, isBotWaiting) == EmptyBotHistory ==> r == Configured(c, [ResetLabelAnimation, ShowMessageText])
    ensures BranchFor(m, isBotWaiting) == BotPlaceholder ==> r.cell.isAnimatingPlaceholder && ShowMessageText !in r.effects
    ensures BranchFor(m, isBotWaiting) == NormalMessage ==> !r.cell.isAnimatingPlaceholder && ShowMessageText in r.effects
    ensures Pulse in r.effects <==> BranchFor(m, isBotWaiting) == NormalMessage && PulsesFor(m)
    ensures ShowTypingIndicator in r.effects <==> BranchFor(m, isBotWaiting) == BotPlaceholder && !c.isAnimatingPlaceholder
    ensures StartPlaceholderFade in r.effects <==> BranchFor(m, isBotWaiting) == BotPlaceholder && !c.isAnimatingPlaceholder
  {
    match BranchFor(m, isBotWaiting)
    case EmptyBotHistory => Configured(c, [ResetLabelAnimation, ShowMessageText])
    case BotPlaceholder =>
      var started := HandlePlaceholderAnimation(c);
      Configured(started.cell, [ResetLabelAnimation] + started.effects)
    case NormalMessage =>
      var stopped := MacStopPlaceholderAnimation(c);
      Configured(stopped.cell, [ResetLabelAnimation] + stopped.effects + [ShowMessageText] + PulseEffects(m))
  }

  /** The effects with the label resets taken out. */
  function WithoutResets(e: seq<CellEffect>): (r: seq<CellEffect>)
    ensures ResetLabelAnimation !in r
    ensures forall x :: x in r <==> x in e && x != ResetLabelAnimation
    ensures multiset(r) == multiset(e)[ResetLabelAnimation := 0]
  {
    if e == [] then []
    else
      assert e == [e[0]] + e[1..];
      if e[0] == ResetLabelAnimation then WithoutResets(e[1..])
      else [e[0]] + WithoutResets(e[1..])
  }

  /**
   The two platforms make the same decision: the same flag afterwards and the
   same visible effects; they differ only in the extra label reset macOS does
   when it stops the placeholder.
   */
  lemma PlatformsAgree(c: CellState, m: UIMessage, isBotWaiting: bool)
    ensures MacConfigure(c, m, isBotWaiting).cell == IOSConfigure(c, m, isBotWaiting).cell
    ensures WithoutResets(MacConfigure(c, m, isBotWaiting).effects) == WithoutResets(IOSConfigure(c, m, isBotWaiting).effects)
  {
    var mac := MacConfigure(c, m, isBotWaiting).effects;
    var ios := IOSConfigure(c, m, isBotWaiting).effects;
    match BranchFor(m, isBotWaiting)
    case EmptyBotHistory =>
    case BotPlaceholder =>
    case NormalMessage =>
      assert mac == [ResetLabelAnimation, ResetLabelAnimation, ShowMessageText] + PulseEffects(m);
      assert ios == [ResetLabelAnimation, ShowMessageText] + PulseEffects(m);
      assert mac[1..] == ios;
  }

  /** Configuring a cell again with the same bot placeholder starts no second animation. */
  lemma ReconfiguringPlaceholderIsQuiet(c: CellState, m: UIMessage)
    requires m.origin != History && m.messageType == Placeholder(ForBot)
    ensures var once := IOSConfigure(c, m, true);
      IOSConfigure(once.cell, m, true) == Configured(once.cell, [ResetLabelAnimation])
  {
  }

  /** Whether the placeholder fade is running after `effects`: a reset stops it, a start starts it. */
  function FadeRunningAfter(running: bool, effects: seq<CellEffect>): bool
    decreases |effects|
  {
    if effects == [] then running
    else
      var next := match effects[0]
        case ResetLabelAnimation => false
        case StartPlaceholderFade => true
        case _ => running;
      FadeRunningAfter(next, effects[1..])
  }

  /** The flag is honest: the cell says the placeholder animates exactly when the fade is running. */
  predicate FlagMatchesFade(c: CellState, fadeRunning: bool)
  {
    c.isAnimatingPlaceholder <==> fadeRunning
  }

  /**
   As written, configuring an animating cell again with the same bot
   placeholder removes the fade (the reset comes first) and does not restart
   it (the flag is still set), so the flag claims an animation that is gone.
   */
  lemma ReconfiguredPlaceholderLosesFade(m: UIMessage)
    requires m.origin == Streaming && m.messageType == Placeholder(ForBot)
    ensures var once := IOSConfigure(CellState(false), m, true);
      var twice := IOSConfigure(once.cell, m, true);
      && FlagMatchesFade(once.cell, FadeRunningAfter(false, once.effects))
      && twice.cell.isAnimatingPlaceholder
      && !FadeRunningAfter(FadeRunningAfter(false, once.effects), twice.effects)
  {
    var once := IOSConfigure(CellState(false), m, true);
    assert once.effects == [ResetLabelAnimation, ShowTypingIndicator, StartPlaceholderFade];
    var twice := IOSConfigure(once.cell, m, true);
    assert twice.effects == [ResetLabelAnimation];
  }

  /**
   iOS `configure(with:)` with the reset clearing the flag, which is what the
   macOS `stopPlaceholderAnimation()` does; the branches are unchanged.
   */
  function IOSConfigureFixed(c: CellState, m: UIMessage, isBotWaiting: bool): (r: Configured)
    ensures BranchFor(m, isBotWaiting) == BotPlaceholder ==>
              r.cell.isAnimatingPlaceholder && r.effects == [ResetLabelAnimation, ShowTypingIndicator, StartPlaceholderFade]
    ensures BranchFor(m, isBotWaiting) != BotPlaceholder ==> !r.cell.isAnimatingPlaceholder
    ensures Pulse in r.effects <==> BranchFor(m, isBotWaiting) == NormalMessage && PulsesFor(m)
  {
    var reset := MacStopPlaceholderAnimation(c);
    match BranchFor(m, isBotWaiting)
    case EmptyBotHistory => Configured(reset.cell, reset.effects + [ShowMessageText])
    case BotPlaceholder =>
      var started := HandlePlaceholderAnimation(reset.cell);
      Configured(started.cell, reset.effects + started.effects)
    case NormalMessage =>
      var stopped := IOSStopPlaceholderAnimation(reset.cell);
      Configured(stopped.cell, reset.effects + stopped.effects + [ShowMessageText] + PulseEffects(m))
  }

  /** With the fix, every configuration leaves the flag honest, whatever the cell's state before. */
  lemma FixedConfigureKeepsFlagHonest(c: CellState, fadeRunning: bool, m: UIMessage, isBotWaiting: bool)
    ensures var r := IOSConfigureFixed(c, m, isBotWaiting);
      FlagMatchesFade(r.cell, FadeRunningAfter(fadeRunning, r.effects))
  {
    var r := IOSConfigureFixed(c, m, isBotWaiting);
    match BranchFor(m, isBotWaiting)
    case EmptyBotHistory =>
      assert r.effects == [ResetLabelAnimation, ShowMessageText];
      assert FadeRunningAfter(fadeRunning, r.effects) == FadeRunningAfter(false, [ShowMessageText]);
    case BotPlaceholder =>
      assert FadeRunningAfter(fadeRunning, r.effects) == FadeRunningAfter(true, []);
    case NormalMessage =>
      if PulsesFor(m) {
        assert r.effects == [ResetLabelAnimation, ShowMessageText, Pulse];
        assert FadeRunningAfter(fadeRunning, r.effects) == FadeRunningAfter(false, [ShowMessageText, Pulse]);
      } else {
        assert r.effects == [ResetLabelAnimation, ShowMessageText];
        assert FadeRunningAfter(fadeRunning, r.effects) == FadeRunningAfter(false, [ShowMessageText]);
      }
  }

  /** The fix changes only the flag bookkeeping: it takes the same branch and pulses exactly as the code does. */
  lemma FixedConfigureSameDecision(c: CellState, m: UIMessage, isBotWaiting: bool)
    ensures (Pulse in IOSConfigureFixed(c, m, isBotWaiting).effects) == (Pulse in IOSConfigure(c, m, isBotWaiting).effects)
    ensures (ShowMessageText in IOSConfigureFixed(c, m, isBotWaiting).effects) == (ShowMessageText in IOSConfigure(c, m, isBotWaiting).effects)
    ensures !c.isAnimatingPlaceholder ==> IOSConfigureFixed(c, m, isBotWaiting).effects == IOSConfigure(c, m, isBotWaiting).effects
  {
  }
}
