/** Probability tables: the nested `defaultdict(lambda: defaultdict(float))`
    that both estimators return.  A table maps an outer key (a token for
    emissions, a source tag for transitions) to a row mapping tags to
    probabilities. */
module Tables {

  type Table = map<string, map<string, real>>

  /** `table[a]`, an empty row when `a` is absent. */
  function Row(table: Table, a: string): map<string, real> {
    if a in table then table[a] else map[]
  }

  /** `table[a][b]` read through the defaultdicts: 0.0 when absent. */
  function Lookup(table: Table, a: string, b: string): real {
    if a in table && b in table[a] then table[a][b] else 0.0
  }

  predicate Has(table: Table, a: string, b: string) {
    a in table && b in table[a]
  }

  /** `table[a][b] = x` */
  function Put(table: Table, a: string, b: string, x: real): Table {
    table[a := Row(table, a)[b := x]]
  }

  /** `Put` adds or overwrites exactly one entry and keeps every row
      non-empty that was. */
  lemma PutEffect(table: Table, a: string, b: string, x: real)
    ensures forall c, d :: Has(Put(table, a, b, x), c, d) <==> (c == a && d == b) || Has(table, c, d)
    ensures forall c, d :: Has(Put(table, a, b, x), c, d) ==>
      Put(table, a, b, x)[c][d] == if c == a && d == b then x else table[c][d]
    ensures forall c :: c in Put(table, a, b, x) <==> c == a || c in table
  {
  }

  /** `PutEffect` at one entry. */
  lemma PutAt(table: Table, a: string, b: string, x: real, c: string, d: string)
    ensures Has(Put(table, a, b, x), c, d) <==> (c == a && d == b) || Has(table, c, d)
    ensures Has(Put(table, a, b, x), c, d) ==>
      Put(table, a, b, x)[c][d] == if c == a && d == b then x else table[c][d]
  {
  }

  /** The entries `table[a][b]` for a fixed `b`, keyed by `a`. */
  ghost function Column(table: Table, b: string): map<string, real> {
    map a | a in table && b in table[a] :: table[a][b]
  }

  /** Every row present holds at least one entry: rows only come into
      being through an assignment to one of their entries. */
  ghost predicate RowsNonEmpty(table: Table) {
    forall a :: a in table ==> table[a] != map[]
  }

  lemma RowsStep(table: Table, a: string, b: string, x: real)
    requires RowsNonEmpty(table)
    ensures RowsNonEmpty(Put(table, a, b, x))
  {
    PutEffect(table, a, b, x);
    assert Has(Put(table, a, b, x), a, b);
  }
}
