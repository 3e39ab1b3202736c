/**
 * The message of the loading screen (src/components/LoadingState.tsx,
 * the effect that picks `baseMessage`): a base message chosen by mode and
 * level, then at most one hint chosen by keywords of the topic.
 */
module LoadingState {
  import opened Text
  import opened Types

  const GENERIC := "Generating your explanation..."
  const DEEP := "Deep-diving into the technical details..."
  const BREWING := "Brewing your ELI5 explanation..."
  const PREPARING := "Preparing a simple 10-year-old friendly answer..."
  const CRAFTING := "Crafting your answer..."
  const DIAGRAM_HINT := " and generating diagrams"
  const CODE_HINT := " including code examples"

  /**
   * The base message. Technical depth mode wins over the level; the
   * default text is never left in place, because every mode is one of the
   * three the chain tests.
   */
  function BaseMessage(mode: Mode, level: Level): (m: string)
    ensures mode == TechnicalDepth ==> m == DEEP
    ensures mode != TechnicalDepth && level == Eli5 ==> m == BREWING
    ensures mode != TechnicalDepth && level == Eli10 ==> m == PREPARING
    ensures mode != TechnicalDepth && level != Eli5 && level != Eli10 ==> m == CRAFTING
    ensures m != GENERIC
  {
    if mode == TechnicalDepth then DEEP
    else if level == Eli5 then BREWING
    else if level == Eli10 then PREPARING
    else
      // the chain's last test, `fast` or `ensemble`, holds of every mode left here
      assert mode == Fast || mode == Ensemble;
      CRAFTING
  }

  /** The topic asks for a diagram. */
  predicate DiagramTopic(lowerTopic: string) {
    Contains(lowerTopic, "diagram") || Contains(lowerTopic, "architecture")
    || Contains(lowerTopic, "flow") || Contains(lowerTopic, "sequence")
  }

  /** The topic asks for code. */
  predicate CodeTopic(lowerTopic: string) {
    Contains(lowerTopic, "code") || Contains(lowerTopic, "python")
    || Contains(lowerTopic, "javascript") || Contains(lowerTopic, "algorithm")
  }

  /** The hint appended to the base message: the diagram hint wins over the code hint. */
  function Hint(topic: string): (h: string)
    ensures h == "" || h == DIAGRAM_HINT || h == CODE_HINT
    ensures h == DIAGRAM_HINT <==> DiagramTopic(Lower(topic))
    ensures h == CODE_HINT <==> !DiagramTopic(Lower(topic)) && CodeTopic(Lower(topic))
  {
    var lowerTopic := Lower(topic);
    if DiagramTopic(lowerTopic) then DIAGRAM_HINT
    else if CodeTopic(lowerTopic) then CODE_HINT
    else ""
  }

  /** The message shown while a level loads. */
  function LoadingMessage(mode: Mode, level: Level, topic: string): string {
    BaseMessage(mode, level) + Hint(topic)
  }

  /**
   * The message is the base message followed by at most one hint, and in
   * technical depth mode it does not depend on the level.
   */
  lemma MessageShape(mode: Mode, level: Level, level': Level, topic: string)
    ensures var m := LoadingMessage(mode, level, topic);
      StartsWith(m, BaseMessage(mode, level)) &&
      (|m| == |BaseMessage(mode, level)| || |m| == |BaseMessage(mode, level)| + |DIAGRAM_HINT|
       || |m| == |BaseMessage(mode, level)| + |CODE_HINT|)
    ensures mode == TechnicalDepth ==> LoadingMessage(mode, level, topic) == LoadingMessage(mode, level', topic)
  {
    var b := BaseMessage(mode, level);
    assert (b + Hint(topic))[..|b|] == b;
  }
}
