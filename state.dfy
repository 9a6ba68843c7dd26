/** The package-level `state` record shared by the orchestrator and every
    wrapped test (dbtesting.go:40-43). */
module State {
  import opened Base

  /** `Skip` records the skip decision; `DB` is nil (`None`) until the
      orchestrator publishes the handle it set up. */
  class SharedState {
    var skip: bool
    var db: Option<Handle>

    /** The zero value the record has when the process starts. */
    constructor ()
      ensures !skip && db == None
    {
      skip := false;
      db := None;
    }
  }
}
