/**
 * The grading configuration (problems and their tests, as read from the test
 * specification file) and the notebook being graded.
 */
module Schema {
  import opened Wrappers
  import opened Values

  /** `prefix_code`: one string or a list of lines. */
  datatype Prefix = PrefixLine(code: string) | PrefixLines(lines: seq<string>)

  /**
   * One test case. Each field is the configuration key of the same meaning;
   * `kind` is `"unknown"` when the `type` key is absent.
   */
  datatype Test = Test(
    kind: string,                     // "type"
    variables: seq<(string, Value)>,  // "variables", empty when absent
    inputOverload: Option<Value>,     // "input_overload"
    expected: Option<Value>,          // "expected"
    format: Option<string>,           // "format"
    tol: Option<real>,                // "tol"
    caseSensitive: bool,              // "case_sensitive", false when absent
    prefixCode: Option<Prefix>)       // "prefix_code"

  /** One problem: its points, cell advance, line offset, prefix code and tests. */
  datatype Problem = Problem(
    pts: Option<real>,                // "pts"
    nextCodeCell: Option<int>,        // "next_code_cell"
    lineOffset: Option<int>,          // "line_offset"
    prefixCode: Option<Prefix>,       // "prefix_code"
    tests: Option<seq<Test>>)         // "tests"
  {
    /** `problem.get("pts", 1)`. */
    function Points(): real {
      pts.GetOr(1.0)
    }

    /** The configured tests; only read once `problem["tests"]` has not raised. */
    function Tests(): seq<Test> {
      tests.GetOr([])
    }
  }

  datatype CellType = Code | Markdown | Raw

  /** A notebook cell: its type and its source text. */
  datatype Cell = Cell(cellType: CellType, source: string)
}
