/** The table the pipeline works on: pandas' DataFrame reduced to what the
    classification reads and writes. */
module Frames {

  datatype Option<T> = None | Some(value: T)

  /** One cell as parsed: None is a missing value (NaN), Some(s) holds the
      text `str()` gives for the parsed value. */
  type Cell = Option<string>

  /** `str(cell)`, as `astype(str)` and `str(stage)` compute it: a missing
      value prints as "nan". */
  function CellText(c: Cell): string {
    match c
    case None => "nan"
    case Some(s) => s
  }

  /** Every row has one cell per column. */
  predicate Rectangular(columns: seq<string>, rows: seq<seq<Cell>>) {
    forall r :: 0 <= r < |rows| ==> |rows[r]| == |columns|
  }

  /** The labels assigned by the quadrant classification. */
  datatype Quadrant =
    | StrategicPartners
    | GrowthOpportunities
    | HighValueProspects
    | BasicUsers
    | Unclassified
  {
    /** The label text stored in the `quadrant` column. */
    function Label(): string {
      match this
      case StrategicPartners => "Strategic Partners"
      case GrowthOpportunities => "Growth Opportunities"
      case HighValueProspects => "High Value Prospects"
      case BasicUsers => "Basic Users"
      case Unclassified => "Unclassified"
    }
  }

  /** A DataFrame: its column labels, its rows, and the four columns that the
      classification adds (each empty until it has run). */
  class Frame {
    var columns: seq<string>
    var rows: seq<seq<Cell>>
    var valueScore: seq<int>
    var engagementLevel: seq<int>
    var quadrant: seq<Quadrant>
    var size: seq<int>

    ghost predicate Valid()
      reads this
    {
      Rectangular(columns, rows)
    }

    constructor (columns: seq<string>, rows: seq<seq<Cell>>)
      requires Rectangular(columns, rows)
      ensures Valid()
      ensures this.columns == columns && this.rows == rows
      ensures valueScore == [] && engagementLevel == [] && quadrant == [] && size == []
    {
      this.columns := columns;
      this.rows := rows;
      valueScore, engagementLevel, quadrant, size := [], [], [], [];
    }
  }
}
