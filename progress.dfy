/** The shared progress bar every export and import task advances once. */
module Progress {
  /** tqdm's bar reduced to what the pipelines use: a fixed total and a counter `update(1)` advances. */
  class ProgressBar {
    const total: nat
    var count: nat

    constructor (total: nat)
      ensures this.total == total && count == 0
    {
      this.total := total;
      count := 0;
    }

    /** `progress_bar.update(1)`; the `refresh()` that follows it in importer.py shows nothing new. */
    method Increment()
      modifies this
      ensures count == old(count) + 1
    {
      count := count + 1;
    }
  }
}
