/** One row of a table whose columns keep their insertion order: the dict
    `input_data` and the one-row pandas data frames built from it. */
module Records {

  /** The value held in one cell of a row. */
  datatype Cell = Num(x: real) | Text(s: string) | Lines(items: seq<string>)

  /** A row: its column names in insertion order and the value under each name. */
  datatype Row = Row(columns: seq<string>, cells: map<string, Cell>) {

    /** Column names are distinct and are exactly the keys that hold a value. */
    ghost predicate Valid() {
      && (forall i, j :: 0 <= i < j < |columns| ==> columns[i] != columns[j])
      && (forall k :: k in cells <==> k in columns)
    }

    /** `row[key] = value`, with the semantics of a Python dict and of a pandas
        column assignment: an existing column keeps its place and only its value
        changes, a new column goes last. */
    function Put(key: string, value: Cell): (r: Row)
      ensures Valid() ==> r.Valid()
      ensures key in r.cells && r.cells[key] == value
      ensures forall k :: k != key ==> (k in r.cells <==> k in cells)
      ensures forall k :: k != key && k in cells ==> r.cells[k] == cells[k]
      ensures key in columns ==> r.columns == columns
      ensures key !in columns ==> r.columns == columns + [key]
    {
      Row(if key in columns then columns else columns + [key], cells[key := value])
    }
  }

  /** `{}`: the row with no columns. */
  const Empty: Row := Row([], map[])

  /** A pandas data frame holding a single row; its columns are assigned in place. */
  class Frame {
    var row: Row

    /** `pd.DataFrame([record])`. */
    constructor (record: Row)
      ensures row == record
    {
      row := record;
    }

    /** `df.copy()`: a new frame with the same contents; later assignments to
        either frame do not reach the other. */
    method Copy() returns (c: Frame)
      ensures fresh(c) && c.row == row
    {
      c := new Frame(row);
    }

    /** `df[name] = value`. */
    method Assign(name: string, value: Cell)
      modifies this
      ensures row == old(row).Put(name, value)
    {
      row := row.Put(name, value);
    }
  }
}
