/** Optional values, results and the exceptions the exporter raises. */
module Wrappers {

  datatype Option<+T> = None | Some(value: T)

  /** One constructor per failure the Python code raises; the comment names the Python exception. */
  datatype Error =
    | InvalidConfidenceLevel(level: string)        // ValueError from _parse_confidence_level
    | MissingUnitSpec(estimate: string)            // ValueError: estimate does not end with h, d or w
    | EmptyEstimate                                // IndexError: value[-1] of an empty value
    | NotANumber(text: string)                     // ValueError from float() or int()
    | UnpackClause(clause: string)                 // ValueError: a kept clause with more than one ':'
    | AlreadySpecified(field: string)              // RuntimeError from _set_property
    | InvalidHolidayInterval(item: string)         // RuntimeError in make_production_calendar
    | InvalidPlanEntry(what: string, name: string, found: nat)   // RuntimeError in plan name resolution
    | UnknownDataSourceType(kind: string)          // RuntimeError in read_data_sources_from_config
    | MissingCalendarMonth(year: int, month: int)  // IndexError: production calendar lookup
    | YearOutOfRange(year: int)                    // ValueError from date(year, 1, 1)
    | MissingWorksSince(worker: string)            // TypeError: date minus None for a TBH worker
    | NoOwnerTeam(issue: string)                   // AttributeError: owned_by_team is None
    | NoAssignee(issue: string)                    // AttributeError: assignee is None
    | BugOwnerNotDevTeam(issue: string)            // KeyError in the bug counter
    | InvalidMetadataHeader                        // ValueError from load_metadata
    | MalformedMetadata(what: string)              // IndexError/KeyError/TypeError while reading metadata
    | MissingReferences(team: string)              // KeyError: total_cells_by_team[team]
    | MissingPreviousTeam(team: string)            // KeyError: team_allocations[team.name]
    | MissingPreviousItem(item: string)            // KeyError: previous_data.items[item_name]
    | MissingPreviousValue(item: string, index: nat)   // IndexError: allocations[idx]
    | NoRowSource                                  // RuntimeError from write_row: neither cells nor a count
    | InvalidSheetName(name: string)               // InvalidWorksheetName from add_worksheet
    | DuplicateSheetName(name: string)             // DuplicateWorksheetName from add_worksheet
    | NotAnIssue(release: string)                  // AttributeError: an attribute of an issue looked up on a tuple

  datatype Result<+T> = Ok(value: T) | Err(error: Error) {
    predicate IsFailure() { Err? }
    function PropagateFailure<U>(): Result<U>
      requires Err?
    {
      Err(error)
    }
    function Extract(): T
      requires Ok?
    {
      value
    }
  }
}
