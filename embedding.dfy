/** Word-embedding ingestion of fairseq/utils.py: `parse_embedding` reads a
    text file of `<token> <floats>` lines into a table, `print_embed_overlap`
    counts the vocabulary types the table covers, and `load_embedding` splices
    the table's vectors into the rows of an embedding matrix in place.

    The file is given as its lines in iteration order (each still carrying
    its line break); the float parsing (`np.fromstring`) is the parameter
    `parse`, and vector contents are otherwise opaque. */
module Embedding {
  import opened Results

  type Vector = seq<real>

  /** Position of the first space in `s`, or `|s|` when there is none. */
  function FirstSpace(s: string): (i: nat)
    ensures i <= |s| && ' ' !in s[..i]
    ensures i < |s| <==> ' ' in s
    ensures i < |s| ==> s[i] == ' '
  {
    if s == [] then 0
    else if s[0] == ' ' then 0
    else
      assert s[1..][..FirstSpace(s[1..])] == s[1..1 + FirstSpace(s[1..])];
      1 + FirstSpace(s[1..])
  }

  /** `word, vec = line.split(' ', 1)`: the text before the first single
      space, and the rest after it. */
  function SplitAtSpace(line: string): (string, string)
    requires ' ' in line
  {
    var i := FirstSpace(line);
    (line[..i], line[i + 1..])
  }

  /** The split is at the first space: the line is the token, one space and
      the payload, and the token holds no space. */
  lemma SplitAtFirstSpace(line: string)
    requires ' ' in line
    ensures line == SplitAtSpace(line).0 + " " + SplitAtSpace(line).1
    ensures ' ' !in SplitAtSpace(line).0
  {
    var i := FirstSpace(line);
    assert line == line[..i] + [line[i]] + line[i + 1..];
  }

  /** `line` is a well-formed row for `token`. */
  predicate Defines(line: string, token: string)
  {
    ' ' in line && SplitAtSpace(line).0 == token
  }

  /** Every well-formed row's token is a key of `table`. */
  predicate TokensIn(body: seq<string>, table: map<string, Vector>)
  {
    forall i :: 0 <= i < |body| && ' ' in body[i] ==> SplitAtSpace(body[i]).0 in table
  }

  /** The table after reading the rows `body` in order, later rows
      overwriting earlier ones; `Err(i)` when row `i` has no space (the
      unpacking raises there). */
  function Collect(body: seq<string>, parse: string -> Vector): (r: Result<map<string, Vector>, nat>)
    ensures r.Ok? <==> forall i :: 0 <= i < |body| ==> ' ' in body[i]
    ensures r.Err? ==> r.error < |body| && ' ' !in body[r.error]
                       && forall j :: 0 <= j < r.error ==> ' ' in body[j]
    ensures r.Ok? ==> TokensIn(body, r.value)
  {
    if body == [] then Ok(map[])
    else
      var init := body[..|body| - 1];
      var line := body[|body| - 1];
      match Collect(init, parse)
      case Err(i) => Err(i)
      case Ok(table) =>
        if ' ' !in line then Err(|body| - 1)
        else
          var parts := SplitAtSpace(line);
          Ok(table[parts.0 := parse(parts.1)])
  }

  datatype ParseError =
      /** `line.split(' ', 1)` gave one piece on line `lineIndex` (ValueError). */
    | NoSpace(lineIndex: nat)
      /** No line after the header: `embedd_dict[None]` raises (KeyError). */
    | NoRows

  /** The table, the reference dimension (that of the LAST row read) and the
      tokens whose vectors differ from it, which are reported but kept. */
  datatype Parsed = Parsed(table: map<string, Vector>, dim: nat, mismatched: set<string>)

  /** `parse_embedding` on the file's lines: line 0 is skipped whatever it holds. */
  function ParseOutcome(lines: seq<string>, parse: string -> Vector): Result<Parsed, ParseError>
  {
    if |lines| <= 1 then Err(NoRows)
    else
      match Collect(lines[1..], parse)
      case Err(i) => Err(NoSpace(i + 1))
      case Ok(table) =>
        assert lines[|lines| - 1] == lines[1..][|lines| - 2];
        var dim := |table[SplitAtSpace(lines[|lines| - 1]).0]|;
        Ok(Parsed(table, dim, set k | k in table && |table[k]| != dim))
  }

  /** `parse_embedding`: one pass over the lines, filling the table. */
  method ParseEmbedding(lines: seq<string>, parse: string -> Vector) returns (r: Result<Parsed, ParseError>)
    ensures r == ParseOutcome(lines, parse)
  {
    var table: map<string, Vector> := map[];
    var word: Option<string> := None;
    var i := 0;
    while i < |lines|
      invariant 0 <= i <= |lines|
      invariant i == 0 ==> table == map[]
      invariant i >= 1 ==> Collect(lines[1..][..i - 1], parse) == Ok(table)
      invariant forall j :: 1 <= j < i ==> ' ' in lines[j]
      invariant word.None? <==> i <= 1
      invariant word.Some? ==> ' ' in lines[i - 1] && word.value == SplitAtSpace(lines[i - 1]).0
                               && word.value in table
    {
      if i > 0 {
        var line := lines[i];
        if ' ' !in line {
          CollectFirstError(lines[1..], parse, i - 1);
          return Err(NoSpace(i));
        }
        var parts := SplitAtSpace(line);
        CollectStep(lines[1..], parse, i - 1, table);
        table := table[parts.0 := parse(parts.1)];
        word := Some(parts.0);
      }
      i := i + 1;
    }
    if word.None? {
      return Err(NoRows);
    }
    assert lines[1..][..i - 1] == lines[1..];
    var dim := |table[word.value]|;
    var mismatched := set k | k in table && |table[k]| != dim;
    return Ok(Parsed(table, dim, mismatched));
  }

  /** Reading one more well-formed row adds (or overwrites) its entry. */
  lemma CollectStep(body: seq<string>, parse: string -> Vector, n: nat, table: map<string, Vector>)
    requires n < |body| && ' ' in body[n]
    requires Collect(body[..n], parse) == Ok(table)
    ensures Collect(body[..n + 1], parse) == Ok(table[SplitAtSpace(body[n]).0 := parse(SplitAtSpace(body[n]).1)])
  {
    assert body[..n + 1][..n] == body[..n];
  }

  /** The first row without a space is where reading the whole file stops. */
  lemma CollectFirstError(body: seq<string>, parse: string -> Vector, n: nat)
    requires n < |body| && ' ' !in body[n]
    requires forall j :: 0 <= j < n ==> ' ' in body[j]
    ensures Collect(body, parse) == Err(n)
  {
    assert Collect(body, parse).Err?;
  }

  /** The table holds a token exactly when some row defines it. */
  lemma {:induction false} CollectKeys(body: seq<string>, parse: string -> Vector, token: string)
    requires Collect(body, parse).Ok?
    ensures token in Collect(body, parse).value <==> exists i :: 0 <= i < |body| && Defines(body[i], token)
  {
    if body != [] {
      var init := body[..|body| - 1];
      CollectKeys(init, parse, token);
      if exists i :: 0 <= i < |init| && Defines(init[i], token) {
        var i :| 0 <= i < |init| && Defines(init[i], token);
        assert body[i] == init[i];
      }
      if exists i :: 0 <= i < |body| && Defines(body[i], token) {
        var i :| 0 <= i < |body| && Defines(body[i], token);
        if i < |init| {
          assert body[i] == init[i];
        }
      }
    }
  }

  /** Row `i` is the last row of `body` that defines `token`. */
  predicate LastDefines(body: seq<string>, token: string, i: int)
  {
    && 0 <= i < |body| && Defines(body[i], token)
    && forall j :: i < j < |body| ==> !Defines(body[j], token)
  }

  /** A token in the table holds the vector of the last row that defines it. */
  lemma {:induction false} CollectLastWins(body: seq<string>, parse: string -> Vector, token: string)
    requires Collect(body, parse).Ok? && token in Collect(body, parse).value
    ensures exists i :: LastDefines(body, token, i)
                        && Collect(body, parse).value[token] == parse(SplitAtSpace(body[i]).1)
  {
    var init := body[..|body| - 1];
    var last := |body| - 1;
    var table := Collect(init, parse).value;
    var parts := SplitAtSpace(body[last]);
    assert Collect(body, parse).value == table[parts.0 := parse(parts.1)];
    if parts.0 == token {
      assert LastDefines(body, token, last);
    } else {
      assert token in table;
      CollectLastWins(init, parse, token);
      var i :| LastDefines(init, token, i) && table[token] == parse(SplitAtSpace(init[i]).1);
      assert body[i] == init[i];
      forall j | i < j < |body|
        ensures !Defines(body[j], token)
      {
        if j < last { assert body[j] == init[j]; }
      }
      assert LastDefines(body, token, i);
    }
  }

  /** The reference dimension is that of the vector on the last line. */
  lemma ParsedDimension(lines: seq<string>, parse: string -> Vector)
    requires ParseOutcome(lines, parse).Ok?
    ensures ' ' in lines[|lines| - 1]
    ensures ParseOutcome(lines, parse).value.dim == |parse(SplitAtSpace(lines[|lines| - 1]).1)|
  {
    var body := lines[1..];
    assert body[|body| - 1] == lines[|lines| - 1];
    assert Collect(body, parse).value ==
      Collect(body[..|body| - 1], parse).value[SplitAtSpace(body[|body| - 1]).0 := parse(SplitAtSpace(body[|body| - 1]).1)];
  }

  /** A successful parse: the table holds exactly the tokens of lines 1 and
      onwards, each with the vector of its last line; the reference dimension
      is the length of the last line's vector; mismatching rows stay. */
  lemma ParsedTable(lines: seq<string>, parse: string -> Vector, token: string)
    requires ParseOutcome(lines, parse).Ok?
    ensures var p := ParseOutcome(lines, parse).value;
            && (token in p.table <==> exists i :: 1 <= i < |lines| && Defines(lines[i], token))
            && (token in p.table ==>
                  exists i :: && 1 <= i < |lines| && Defines(lines[i], token)
                              && p.table[token] == parse(SplitAtSpace(lines[i]).1)
                              && forall j :: i < j < |lines| ==> !Defines(lines[j], token))
            && p.dim == |parse(SplitAtSpace(lines[|lines| - 1]).1)|
            && (token in p.mismatched <==> token in p.table && |p.table[token]| != p.dim)
  {
    ParsedDimension(lines, parse);
    var body := lines[1..];
    var t := Collect(body, parse).value;
    CollectKeys(body, parse, token);
    if exists i :: 1 <= i < |lines| && Defines(lines[i], token) {
      var i :| 1 <= i < |lines| && Defines(lines[i], token);
      assert Defines(body[i - 1], token);
    }
    if exists i :: 0 <= i < |body| && Defines(body[i], token) {
      var i :| 0 <= i < |body| && Defines(body[i], token);
      assert Defines(lines[i + 1], token);
    }
    if token in t {
      CollectLastWins(body, parse, token);
      var k :| LastDefines(body, token, k) && t[token] == parse(SplitAtSpace(body[k]).1);
      assert lines[k + 1] == body[k];
      forall j | k + 1 < j < |lines|
        ensures !Defines(lines[j], token)
      {
        assert lines[j] == body[j - 1];
      }
    }
  }

  /** Line 0 never contributes: any header gives the same outcome. */
  lemma HeaderIgnored(lines: seq<string>, header: string, parse: string -> Vector)
    requires |lines| >= 1
    ensures ParseOutcome([header] + lines[1..], parse) == ParseOutcome(lines, parse)
  {
    assert ([header] + lines[1..])[1..] == lines[1..];
  }

  /** A file that is only a header (or empty) fails after the loop. */
  lemma HeaderOnlyFails(lines: seq<string>, parse: string -> Vector)
    requires |lines| <= 1
    ensures ParseOutcome(lines, parse) == Err(NoRows)
  {
  }

  /** A row without a space is an error, reported at the first such row. */
  lemma NoSpaceFails(lines: seq<string>, parse: string -> Vector, n: nat)
    requires 1 <= n < |lines| && ' ' !in lines[n]
    ensures ParseOutcome(lines, parse).Err?
    ensures ParseOutcome(lines, parse).error.NoSpace?
    ensures ParseOutcome(lines, parse).error.lineIndex <= n
  {
    assert lines[1..][n - 1] == lines[n];
  }

  // ----- overlap --------------------------------------------------------

  /** Vocabulary types found in the table, counted at their first
      occurrence in the symbol list. */
  function FoundCount(table: map<string, Vector>, symbols: seq<string>): (n: nat)
    ensures n <= |symbols|
  {
    if symbols == [] then 0
    else
      var init := symbols[..|symbols| - 1];
      var s := symbols[|symbols| - 1];
      FoundCount(table, init) + (if s in table && s !in init then 1 else 0)
  }

  /** `set(vocab_dict.symbols)`. */
  function SymbolSet(symbols: seq<string>): set<string>
  {
    set s | s in symbols
  }

  /** `print_embed_overlap`: (types found, vocabulary size). */
  function EmbedOverlap(table: map<string, Vector>, symbols: seq<string>): (r: (nat, nat))
    ensures r.1 == |symbols|
    ensures r.0 <= |table|
    ensures r.0 == 0 <==> forall i :: 0 <= i < |symbols| ==> symbols[i] !in table
  {
    var found := table.Keys * SymbolSet(symbols);
    assert table.Keys == found + (table.Keys - found);
    assert |table.Keys| == |table|;
    assert (exists i :: 0 <= i < |symbols| && symbols[i] in table) ==> found != {} by {
      if exists i :: 0 <= i < |symbols| && symbols[i] in table {
        var i :| 0 <= i < |symbols| && symbols[i] in table;
        assert symbols[i] in found;
      }
    }
    (|found|, |symbols|)
  }

  /** Extending the vocabulary by one symbol adds that symbol to its set. */
  lemma SymbolSetSnoc(symbols: seq<string>)
    requires symbols != []
    ensures SymbolSet(symbols) == SymbolSet(symbols[..|symbols| - 1]) + {symbols[|symbols| - 1]}
  {
    assert symbols == symbols[..|symbols| - 1] + [symbols[|symbols| - 1]];
  }

  lemma IntersectWithNew(keys: set<string>, found: set<string>, s: string)
    requires s in keys && s !in found
    ensures |keys * (found + {s})| == |keys * found| + 1
  {
    assert keys * (found + {s}) == (keys * found) + {s};
  }

  /** The overlap is the number of distinct vocabulary types present in the
      table, counted at first occurrence. */
  lemma {:induction false} OverlapCountsFoundTypes(table: map<string, Vector>, symbols: seq<string>)
    ensures EmbedOverlap(table, symbols).0 == FoundCount(table, symbols)
  {
    if symbols != [] {
      var init := symbols[..|symbols| - 1];
      var s := symbols[|symbols| - 1];
      OverlapCountsFoundTypes(table, init);
      SymbolSetSnoc(symbols);
      if s in table && s !in init {
        IntersectWithNew(table.Keys, SymbolSet(init), s);
      } else {
        assert table.Keys * SymbolSet(symbols) == table.Keys * SymbolSet(init);
      }
    }
  }

  /** The overlap is bounded by the table size and by the vocabulary size. */
  lemma OverlapBounded(table: map<string, Vector>, symbols: seq<string>)
    ensures EmbedOverlap(table, symbols).0 <= |table|
    ensures EmbedOverlap(table, symbols).0 <= |symbols|
  {
    OverlapCountsFoundTypes(table, symbols);
  }

  // ----- splicing -------------------------------------------------------

  /** The matrix rows after `load_embedding` visits the vocabulary in
      order: row `idx` takes the table's vector for `vocab[idx]` when that
      token is in the table. */
  function Spliced(rows: seq<Vector>, vocab: seq<string>, table: map<string, Vector>): seq<Vector>
  {
    if vocab == [] then rows
    else
      var before := Spliced(rows, vocab[..|vocab| - 1], table);
      var idx := |vocab| - 1;
      if vocab[idx] in table && idx < |before| then before[idx := table[vocab[idx]]] else before
  }

  /** Row count unchanged; a row is overwritten exactly when its token is in
      the table, with that token's vector; every other row keeps its value. */
  lemma {:induction false} SplicedAt(rows: seq<Vector>, vocab: seq<string>, table: map<string, Vector>, i: nat)
    ensures |Spliced(rows, vocab, table)| == |rows|
    ensures i < |rows| ==>
              Spliced(rows, vocab, table)[i] ==
                if i < |vocab| && vocab[i] in table then table[vocab[i]] else rows[i]
  {
    if vocab != [] {
      var init := vocab[..|vocab| - 1];
      SplicedAt(rows, init, table, i);
      if i < |init| {
        assert init[i] == vocab[i];
      }
    }
  }

  /** Splicing the same table twice changes nothing further. */
  lemma SplicedIdempotent(rows: seq<Vector>, vocab: seq<string>, table: map<string, Vector>)
    ensures Spliced(Spliced(rows, vocab, table), vocab, table) == Spliced(rows, vocab, table)
  {
    var once := Spliced(rows, vocab, table);
    SplicedAt(rows, vocab, table, 0);
    SplicedAt(once, vocab, table, 0);
    forall i | 0 <= i < |rows|
      ensures Spliced(once, vocab, table)[i] == once[i]
    {
      SplicedAt(rows, vocab, table, i);
      SplicedAt(once, vocab, table, i);
    }
  }

  /** `load_embedding`: overwrites rows of the matrix in place (the source
      returns the same object). A found token whose index is past the last
      row raises IndexError (`Some(idx)`); every row before it has been
      written by then, and no later index has a row to write. */
  method LoadEmbedding(table: map<string, Vector>, vocab: seq<string>, weight: array<Vector>)
    returns (indexError: Option<nat>)
    modifies weight
    ensures weight[..] == Spliced(old(weight[..]), vocab, table)
    ensures indexError.Some? <==> exists i :: weight.Length <= i < |vocab| && vocab[i] in table
    ensures indexError.Some? ==>
              && weight.Length <= indexError.value < |vocab| && vocab[indexError.value] in table
              && forall j :: weight.Length <= j < indexError.value ==> vocab[j] !in table
  {
    var idx := 0;
    while idx < |vocab|
      invariant 0 <= idx <= |vocab|
      invariant weight[..] == Spliced(old(weight[..]), vocab[..idx], table)
      invariant forall j :: weight.Length <= j < idx ==> vocab[j] !in table
    {
      assert vocab[..idx + 1][..idx] == vocab[..idx];
      SplicedAt(old(weight[..]), vocab[..idx], table, 0);
      var token := vocab[idx];
      if token in table {
        if idx >= weight.Length {
          SplicedTail(old(weight[..]), vocab, table, idx);
          return Some(idx);
        }
        weight[idx] := table[token];
      }
      idx := idx + 1;
    }
    assert vocab[..idx] == vocab;
    return None;
  }

  /** Vocabulary entries past the last row leave the rows as they are. */
  lemma {:induction false} SplicedTail(rows: seq<Vector>, vocab: seq<string>, table: map<string, Vector>, n: nat)
    requires |rows| <= n <= |vocab|
    ensures Spliced(rows, vocab, table) == Spliced(rows, vocab[..n], table)
    decreases |vocab| - n
  {
    if n < |vocab| {
      var init := vocab[..|vocab| - 1];
      assert init[..n] == vocab[..n];
      SplicedTail(rows, init, table, n);
      SplicedAt(rows, init, table, 0);
    } else {
      assert vocab[..n] == vocab;
    }
  }

  /** The worked example: vocabulary [the, cat, at] over three rows and a
      table for "the" and "at" rewrites rows 0 and 2 and keeps row 1. */
  lemma SpliceExample(r0: Vector, r1: Vector, r2: Vector, vThe: Vector, vAt: Vector)
    ensures Spliced([r0, r1, r2], ["the", "cat", "at"], map["the" := vThe, "at" := vAt]) == [vThe, r1, vAt]
  {
    var rows := [r0, r1, r2];
    var vocab := ["the", "cat", "at"];
    var table := map["the" := vThe, "at" := vAt];
    SplicedAt(rows, vocab, table, 0);
    SplicedAt(rows, vocab, table, 1);
    SplicedAt(rows, vocab, table, 2);
  }
}
