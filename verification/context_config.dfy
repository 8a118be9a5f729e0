/** The fixed product policy behind `contextbuild.Config`. */
module ContextConfig {

  const DEFAULT_WINDOW_TOKENS := 32000
  const TRIGGER_PERCENT := 85
  const CEILING_PERCENT := 95
  const TARGET_PERCENT := 50

  function PercentTokens(tokens: int, percent: int): int {
    if tokens <= 0 || percent <= 0 then 0 else tokens * percent / 100
  }

  function Normalize(windowTokens: int): int {
    if windowTokens <= 0 then DEFAULT_WINDOW_TOKENS else windowTokens
  }

  predicate ValidWindow(windowTokens: int) {
    windowTokens >= 0 && Normalize(windowTokens) >= 2
  }

  function Ceiling(windowTokens: int): int {
    PercentTokens(Normalize(windowTokens), CEILING_PERCENT)
  }

  function Trigger(windowTokens: int): int {
    PercentTokens(Normalize(windowTokens), TRIGGER_PERCENT)
  }

  function Target(windowTokens: int): int {
    PercentTokens(Normalize(windowTokens), TARGET_PERCENT)
  }

  /** The watermarks keep their order for every window. */
  lemma WatermarksAreOrdered(windowTokens: int)
    ensures 0 <= Target(windowTokens) <= Trigger(windowTokens) <= Ceiling(windowTokens)
  {
    var w := Normalize(windowTokens);
    assert w * 50 <= w * 85 <= w * 95;
  }
}
