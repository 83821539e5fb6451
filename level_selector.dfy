/** The severity gate: whether a message's level is severe enough to be written to a file. */
module Selector {
  import opened Wrappers
  import opened Levels

  /** The private static `levelOrder` array. */
  const LevelOrder: seq<LogLevels> := [DEBUG, INFO, WARNING, ERROR]

  /** `Array.prototype.indexOf`: the first position of `x` in `s`, or -1 when it does not occur. */
  function IndexOf(s: seq<LogLevels>, x: LogLevels): (i: int)
    ensures -1 <= i < |s|
    ensures 0 <= i ==> s[i] == x && forall j :: 0 <= j < i ==> s[j] != x
    ensures i == -1 <==> x !in s
  {
    if |s| == 0 then -1
    else if s[0] == x then 0
    else
      var k := IndexOf(s[1..], x);
      if k == -1 then -1 else k + 1
  }

  /** Every level occurs in `LevelOrder`, at the position its rank gives. */
  lemma OrderPositions(l: LogLevels)
    ensures IndexOf(LevelOrder, l) == Rank(l)
  {
    var i := IndexOf(LevelOrder, l);
    assert LevelOrder[Rank(l)] == l;
    assert i != -1;
  }

  /**
   * A selector holds the logger's threshold. The threshold is set once, when
   * the selector is built, and never updated, so the selector is a value.
   */
  datatype LevelSelector = LevelSelector(level: LogLevels) {

    /**
     * Whether a message of level `levelToCheck` is written: an absent level
     * counts as INFO, and the level must come at or after the threshold in
     * `LevelOrder`.
     */
    function CheckLevel(levelToCheck: Option<LogLevels>): (r: bool)
      ensures r <==> Rank(levelToCheck.GetOr(INFO)) >= Rank(level)
    {
      var m := if levelToCheck.None? then INFO else levelToCheck.value;
      OrderPositions(m);
      OrderPositions(level);
      IndexOf(LevelOrder, m) >= IndexOf(LevelOrder, level)
    }
  }

  /** A message without a level is judged exactly like an INFO message. */
  lemma AbsentLevelIsInfo(sel: LevelSelector)
    ensures sel.CheckLevel(None) == sel.CheckLevel(Some(INFO))
  {
  }

  /** A selector always accepts messages of its own threshold level. */
  lemma AcceptsOwnLevel(sel: LevelSelector)
    ensures sel.CheckLevel(Some(sel.level))
  {
  }

  /** A DEBUG threshold accepts every message, with or without a level. */
  lemma DebugAcceptsAll(m: Option<LogLevels>)
    ensures LevelSelector(DEBUG).CheckLevel(m)
  {
  }

  /** An ERROR threshold accepts ERROR messages and nothing else. */
  lemma ErrorAcceptsOnlyError(m: Option<LogLevels>)
    ensures LevelSelector(ERROR).CheckLevel(m) <==> m == Some(ERROR)
  {
  }

  /** Raising the message's level never turns acceptance into rejection. */
  lemma MonotoneInMessage(sel: LevelSelector, m: LogLevels, m': LogLevels)
    requires sel.CheckLevel(Some(m)) && Rank(m) <= Rank(m')
    ensures sel.CheckLevel(Some(m'))
  {
  }

  /** Lowering the threshold never rejects a message a higher threshold accepted. */
  lemma AntitoneInThreshold(t: LogLevels, t': LogLevels, m: Option<LogLevels>)
    requires Rank(t') <= Rank(t) && LevelSelector(t).CheckLevel(m)
    ensures LevelSelector(t').CheckLevel(m)
  {
  }
}
