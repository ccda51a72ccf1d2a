/** Shared vocabulary: optional values, identifiers and instants. */
module Prelude {

  datatype Option<+T> = None | Some(value: T)

  /** UUIDs: only equality matters. */
  type Id = int

  /** Instants and durations of one monotone clock. */
  type Time = int

  /** There is always an identifier nobody uses. */
  lemma UnusedId(used: set<Id>) returns (id: Id)
    ensures id !in used && forall other :: other in used ==> other < id
    decreases used
  {
    if x :| x in used {
      var rest := used - {x};
      var above := UnusedId(rest);
      id := if x < above then above else x + 1;
      forall other | other in used ensures other < id {
        assert other == x || other in rest;
      }
    } else {
      id := 0;
    }
  }

  /** And a string nobody uses: one longer than all. */
  lemma UnusedString(used: set<string>) returns (s: string)
    ensures s !in used && forall other :: other in used ==> |other| < |s|
    decreases used
  {
    if x :| x in used {
      var rest := used - {x};
      var longer := UnusedString(rest);
      s := longer + x + "x";
      forall other | other in used ensures |other| < |s| {
        assert other == x || other in rest;
      }
    } else {
      s := "x";
    }
  }
}
