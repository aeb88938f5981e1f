/** The five components a run can be asked to export or import (main.py:64-65). */
module Components {
  datatype Component = Routines | Views | ExternalTables | Tables | ScheduledQueries

  /** main.py:92, exporter.py:191 and importer.py:155: all five, in this order. */
  const DefaultComponents: seq<Component> := [Routines, Views, ExternalTables, Tables, ScheduledQueries]

  lemma DefaultIsComplete()
    ensures forall c: Component :: c in DefaultComponents
  {
    forall c: Component ensures c in DefaultComponents {
      match c
      case Routines => assert DefaultComponents[0] == c;
      case Views => assert DefaultComponents[1] == c;
      case ExternalTables => assert DefaultComponents[2] == c;
      case Tables => assert DefaultComponents[3] == c;
      case ScheduledQueries => assert DefaultComponents[4] == c;
    }
  }

  /** main.py:92, `args.components or [...]`: an empty choice means all five. */
  function ChosenComponents(chosen: seq<Component>): (components: seq<Component>)
    ensures |chosen| > 0 ==> components == chosen
    ensures |chosen| == 0 ==> forall c: Component :: c in components
  {
    if |chosen| > 0 then chosen else DefaultIsComplete(); DefaultComponents
  }

  /**
   * How many of routines, views and external tables are requested: each
   * is one task per dataset in both pipelines (main.py:38-43).
   */
  function PerDataset(components: seq<Component>): (n: nat)
    ensures n <= 3
    ensures n == 0 <==> Routines !in components && Views !in components && ExternalTables !in components
  {
    (if Routines in components then 1 else 0) + (if Views in components then 1 else 0)
      + (if ExternalTables in components then 1 else 0)
  }
}
