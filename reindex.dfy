/**
 * The deploy-time indexing script: every composition is chunked, its chunks
 * are embedded in one batched call, and its stored chunk rows are replaced
 * by a DELETE followed by one INSERT whose parameters are numbered six per
 * row. The database is a class holding the chunk table and the log of the
 * statements it ran; the embedding service, the composition listing and the
 * vector formatting are parameters.
 */
module Reindex {
  import opened Wrappers
  import opened Text
  import Chunker

  const EMBEDDING_DIM: nat := 768
  const PARAMS_PER_ROW: nat := 6
  const MISSING_ENV_PREFIX: string := "Missing required environment variable: "

  // ---------------------------------------------------------------------
  // Environment
  // ---------------------------------------------------------------------

  /** `requiredEnv(name)`: the value, or the error thrown when the variable
      is unset or empty. */
  function RequiredEnv(env: map<string, string>, name: string): (r: Result<string, string>)
    ensures r.Ok? <==> name in env && env[name] != ""
    ensures r.Ok? ==> r.value == env[name]
    ensures r.Err? ==> r.error == MISSING_ENV_PREFIX + name
  {
    if name in env && env[name] != "" then Ok(env[name]) else Err(MISSING_ENV_PREFIX + name)
  }

  // ---------------------------------------------------------------------
  // Rows, parameters and placeholders
  // ---------------------------------------------------------------------

  /** A row of `"CompositionChunk"`. */
  datatype Row = Row(compositionId: string, chunkIndex: nat, title: string, genre: string,
                     content: string, embedding: string)

  /** A bound SQL parameter. */
  datatype SqlParam = PText(text: string) | PInt(number: int)

  /** The six parameters of one row, in column order. */
  function RowParams(row: Row): (ps: seq<SqlParam>)
    ensures |ps| == PARAMS_PER_ROW
    ensures DecodeRow(ps) == Some(row)
  {
    [PText(row.compositionId), PInt(row.chunkIndex), PText(row.title), PText(row.genre),
     PText(row.content), PText(row.embedding)]
  }

  /** How the database reads six bound parameters as a row; a parameter of
      the wrong type makes the statement fail. */
  function DecodeRow(ps: seq<SqlParam>): Option<Row>
    requires |ps| == PARAMS_PER_ROW
  {
    if ps[0].PText? && ps[1].PInt? && ps[1].number >= 0 && ps[2].PText? && ps[3].PText?
       && ps[4].PText? && ps[5].PText?
    then Some(Row(ps[0].text, ps[1].number, ps[2].text, ps[3].text, ps[4].text, ps[5].text))
    else None
  }

  /** The 1-based parameter numbers the placeholder of row i names:
      6i+1 up to 6i+6. */
  function ParamNumbers(i: nat): (ns: seq<nat>)
    ensures |ns| == PARAMS_PER_ROW
    ensures forall k :: 0 <= k < PARAMS_PER_ROW ==> ns[k] == 6 * i + k + 1
  {
    seq(PARAMS_PER_ROW, k requires 0 <= k < PARAMS_PER_ROW => 6 * i + k + 1)
  }

  /** The parameter numbers of the placeholders of n rows. */
  function Numbers(n: nat): (tuples: seq<seq<nat>>)
    ensures |tuples| == n && forall i :: 0 <= i < n ==> tuples[i] == ParamNumbers(i)
  {
    seq(n, i requires 0 <= i < n => ParamNumbers(i))
  }

  /** The text of a row's placeholder, `($a, $b, $c, $d, $e, $f::vector(768))`. */
  function PlaceholderText(ns: seq<nat>): string
    requires |ns| == PARAMS_PER_ROW
  {
    "($" + NatToString(ns[0]) + ", $" + NatToString(ns[1]) + ", $" + NatToString(ns[2])
    + ", $" + NatToString(ns[3]) + ", $" + NatToString(ns[4]) + ", $" + NatToString(ns[5])
    + "::vector(" + NatToString(EMBEDDING_DIM) + "))"
  }

  /** The parameters of rows, six after six. */
  function ParamsOf(rows: seq<Row>): (ps: seq<SqlParam>)
    ensures |ps| == 6 * |rows|
  {
    if rows == [] then [] else ParamsOf(rows[..|rows| - 1]) + RowParams(rows[|rows| - 1])
  }

  /** Parameter 6i+k+1 is column k of row i. */
  lemma {:induction false} ParamsOfIndex(rows: seq<Row>, i: nat, k: nat)
    requires i < |rows| && k < PARAMS_PER_ROW
    ensures ParamsOf(rows)[6 * i + k] == RowParams(rows[i])[k]
    decreases |rows|
  {
    var pre := rows[..|rows| - 1];
    if i < |rows| - 1 {
      ParamsOfIndex(pre, i, k);
      assert pre[i] == rows[i];
    }
  }

  /** The row one placeholder binds, if its numbers are in range and the
      parameters have the right types. */
  function BindTuple(ns: seq<nat>, values: seq<SqlParam>): Option<Row> {
    if |ns| == PARAMS_PER_ROW && forall k :: 0 <= k < PARAMS_PER_ROW ==> 1 <= ns[k] <= |values|
    then DecodeRow(seq(PARAMS_PER_ROW, k requires 0 <= k < PARAMS_PER_ROW => values[ns[k] - 1]))
    else None
  }

  /** The rows an INSERT of these placeholders and values adds, or None if
      the statement is rejected. */
  function Bind(tuples: seq<seq<nat>>, values: seq<SqlParam>): Option<seq<Row>> {
    if forall i :: 0 <= i < |tuples| ==> BindTuple(tuples[i], values).Some?
    then Some(seq(|tuples|, i requires 0 <= i < |tuples| => BindTuple(tuples[i], values).value))
    else None
  }

  /** The six parameters placeholder i names are row i's. */
  lemma TupleParams(rows: seq<Row>, i: nat)
    requires i < |rows|
    ensures forall k :: 0 <= k < PARAMS_PER_ROW ==> 1 <= ParamNumbers(i)[k] <= |ParamsOf(rows)|
    ensures seq(PARAMS_PER_ROW, k requires 0 <= k < PARAMS_PER_ROW => ParamsOf(rows)[ParamNumbers(i)[k] - 1])
         == RowParams(rows[i])
  {
    var values := ParamsOf(rows);
    var ns := ParamNumbers(i);
    ParamsOfIndex(rows, i, 0);
    ParamsOfIndex(rows, i, 1);
    ParamsOfIndex(rows, i, 2);
    ParamsOfIndex(rows, i, 3);
    ParamsOfIndex(rows, i, 4);
    ParamsOfIndex(rows, i, 5);
    assert 6 * i + 6 <= |values|;
  }

  /** Placeholder i of rows' parameters binds row i. */
  lemma BindTupleRow(rows: seq<Row>, i: nat)
    requires i < |rows|
    ensures BindTuple(ParamNumbers(i), ParamsOf(rows)) == Some(rows[i])
  {
    TupleParams(rows, i);
  }

  /** The numbering is consistent: placeholder i binds exactly row i. */
  lemma BindParams(rows: seq<Row>)
    ensures Bind(Numbers(|rows|), ParamsOf(rows)) == Some(rows)
  {
    var tuples := Numbers(|rows|);
    var values := ParamsOf(rows);
    forall i | 0 <= i < |rows|
      ensures BindTuple(tuples[i], values) == Some(rows[i])
    {
      BindTupleRow(rows, i);
    }
    assert seq(|tuples|, i requires 0 <= i < |tuples| => BindTuple(tuples[i], values).value) == rows;
  }

  // ---------------------------------------------------------------------
  // The chunk table and the statements run against it
  // ---------------------------------------------------------------------

  /** Stored chunk rows, grouped by `compositionId`. */
  type Table = map<string, seq<Row>>

  /** The two statements the script runs. An INSERT is described by the
      parameter numbers of each placeholder and the bound values. */
  datatype Query = DeleteChunks(compositionId: string)
                 | InsertChunks(tuples: seq<seq<nat>>, values: seq<SqlParam>)

  function InsertRow(t: Table, r: Row): Table {
    t[r.compositionId := (if r.compositionId in t then t[r.compositionId] else []) + [r]]
  }

  function InsertRows(t: Table, rows: seq<Row>): Table
    decreases |rows|
  {
    if rows == [] then t else InsertRows(InsertRow(t, rows[0]), rows[1..])
  }

  /** Rows all of one composition are appended to its group, and no other
      group changes. */
  lemma {:induction false} InsertRowsOne(t: Table, id: string, rows: seq<Row>)
    requires forall j :: 0 <= j < |rows| ==> rows[j].compositionId == id
    ensures InsertRows(t, rows) == if rows == [] then t else t[id := (if id in t then t[id] else []) + rows]
    decreases |rows|
  {
    if rows != [] {
      var old0 := if id in t then t[id] else [];
      var t1 := InsertRow(t, rows[0]);
      assert t1 == t[id := old0 + [rows[0]]];
      InsertRowsOne(t1, id, rows[1..]);
      if rows[1..] != [] {
        assert (old0 + [rows[0]]) + rows[1..] == old0 + rows;
        assert t1[id := (old0 + [rows[0]]) + rows[1..]] == t[id := old0 + rows];
      } else {
        assert [rows[0]] == rows;
      }
    }
  }

  /** What a statement does to the table: DELETE drops the composition's
      group; INSERT adds the bound rows, or nothing when it is rejected. */
  function Apply(t: Table, q: Query): Table {
    match q
    case DeleteChunks(id) => t - {id}
    case InsertChunks(tuples, values) =>
      match Bind(tuples, values)
      case Some(rows) => InsertRows(t, rows)
      case None => t
  }

  function ApplyAll(t: Table, qs: seq<Query>): Table
    decreases |qs|
  {
    if qs == [] then t else ApplyAll(Apply(t, qs[0]), qs[1..])
  }

  /** The connection pool: the table it reaches, the statements the
      database carried out, whether the pool is still open, and which
      statements the database refuses (`Some(message)`: the query throws). */
  class Pool {
    var table: Table
    var log: seq<Query>
    var open: bool
    const reject: Query -> Option<string>

    constructor(initial: Table, reject: Query -> Option<string>)
      ensures table == initial && log == [] && open && this.reject == reject
    {
      table := initial;
      log := [];
      open := true;
      this.reject := reject;
    }

    /** `pool.query(...)` for one of the two statements: carried out, or
        refused with the database's error and no effect. */
    method Execute(q: Query) returns (error: Option<string>)
      requires open
      modifies this
      ensures error == reject(q) && open
      ensures error.None? ==> table == Apply(old(table), q) && log == old(log) + [q]
      ensures error.Some? ==> table == old(table) && log == old(log)
    {
      error := reject(q);
      if error.None? {
        table := Apply(table, q);
        log := log + [q];
      }
    }

    /** `pool.end()` */
    method End()
      modifies this
      ensures !open && table == old(table) && log == old(log)
    {
      open := false;
    }
  }

  // ---------------------------------------------------------------------
  // Indexing one composition
  // ---------------------------------------------------------------------

  /** A row of the `"Composition"` listing; absent fields read as `''`. */
  datatype DbComposition = DbComposition(id: string, title: Option<string>, genre: Option<string>,
                                         content: Option<string>)

  function Title(c: DbComposition): string { c.title.GetOr("") }
  function Genre(c: DbComposition): string { c.genre.GetOr("") }

  function ChunksOf(c: DbComposition): seq<string> {
    Chunker.ChunkComposition(Chunker.Composition(Title(c), c.content.GetOr(""), Genre(c)))
  }

  /** One batched call to the embedding service: the inputs and the title. */
  datatype EmbedCall = EmbedCall(contents: seq<string>, title: string)

  /** The service's answer: a thrown error, or the `embeddings` field (absent
      reads as `[]`), each entry with or without `values`. */
  datatype EmbedReply = EmbedThrew(message: string) | Embedded(embeddings: Option<seq<Option<seq<real>>>>)

  /** The text embedded for a chunk: the title line, a blank line, the chunk. */
  function EmbedText(title: string, chunk: string): (s: string)
    ensures |s| == |"Title: " + title + "\n\n"| + |chunk|
    ensures StartsWith(s, "Title: " + title + "\n\n") && s[|s| - |chunk|..] == chunk
  {
    var head := "Title: " + title + "\n\n";
    var s := head + chunk;
    assert s[..|head|] == head;
    s
  }

  function EmbedTexts(title: string, chunks: seq<string>): (r: seq<string>)
    ensures |r| == |chunks| && forall i :: 0 <= i < |chunks| ==> r[i] == EmbedText(title, chunks[i])
  {
    seq(|chunks|, i requires 0 <= i < |chunks| => EmbedText(title, chunks[i]))
  }

  /** `embeddings[i]?.values ?? []` */
  function RawValues(embs: seq<Option<seq<real>>>, i: nat): seq<real> {
    if i < |embs| && embs[i].Some? then embs[i].value else []
  }

  function MismatchMessage(id: string, expected: nat, got: nat): string {
    "[reindex] Embedding count mismatch for " + id + ": expected " + NatToString(expected)
    + ", got " + NatToString(got)
  }

  /** The rows stored for a composition: one per chunk, numbered from 0, with
      the composition's title and genre and the chunk's vector literal.
      `vector` is `toVectorLiteral(normalizeEmbedding(raw))`. */
  function ChunkRows(id: string, title: string, genre: string, chunks: seq<string>,
                     embs: seq<Option<seq<real>>>, vector: seq<real> -> string): (rows: seq<Row>)
    ensures |rows| == |chunks|
    ensures forall i :: 0 <= i < |rows| ==>
              rows[i] == Row(id, i, title, genre, chunks[i], vector(RawValues(embs, i)))
  {
    seq(|chunks|, i requires 0 <= i < |chunks| => Row(id, i, title, genre, chunks[i], vector(RawValues(embs, i))))
  }

  /** What a step did: the table after it, the statements and embedding
      calls it made, and the error it threw, if any. */
  datatype StepRun = StepRun(table: Table, queries: seq<Query>, calls: seq<EmbedCall>, error: Option<string>)

  /** The one batched embedding call for a composition's chunks. */
  function CallFor(title: string, chunks: seq<string>): EmbedCall {
    EmbedCall(EmbedTexts(title, chunks), title)
  }

  /** The INSERT of a composition's rows. */
  function InsertOf(rows: seq<Row>): Query {
    InsertChunks(Numbers(|rows|), ParamsOf(rows))
  }

  /** The embedding service answered with one embedding per chunk. */
  predicate Matched(chunks: seq<string>, reply: EmbedReply) {
    chunks != [] && reply.Embedded? && |reply.embeddings.GetOr([])| == |chunks|
  }

  /**
   * The body of the `for` loop once the chunks are known. No chunks: the
   * composition is skipped without a call or a statement. An error of the
   * embedding service or a count mismatch is thrown before the DELETE, so the
   * table is unchanged. Otherwise the DELETE and then the INSERT run, each of
   * which the database may refuse: a refused DELETE changes nothing, but a
   * refused INSERT comes after the DELETE has taken effect, so the
   * composition's rows are gone. When both are carried out the composition's
   * group becomes exactly one row per chunk, numbered from 0. No other group
   * changes in any case.
   */
  function StoreChunks(t: Table, id: string, title: string, genre: string, chunks: seq<string>,
                       embed: EmbedCall -> EmbedReply, vector: seq<real> -> string,
                       reject: Query -> Option<string>): (r: StepRun)
    ensures r.table - {id} == t - {id}
    ensures r.table == ApplyAll(t, r.queries)
  {
    if chunks == [] then StepRun(t, [], [], None)
    else
      var call := CallFor(title, chunks);
      match embed(call)
      case EmbedThrew(m) => StepRun(t, [], [call], Some(m))
      case Embedded(e) =>
        var embs := e.GetOr([]);
        if |embs| != |chunks| then StepRun(t, [], [call], Some(MismatchMessage(id, |chunks|, |embs|)))
        else
          var del := DeleteChunks(id);
          if reject(del).Some? then StepRun(t, [], [call], reject(del))
          else
            var rows := ChunkRows(id, title, genre, chunks, embs, vector);
            var ins := InsertOf(rows);
            assert [del][1..] == [];
            if reject(ins).Some? then StepRun(t - {id}, [del], [call], reject(ins))
            else
              ReplaceGroup(t, id, rows);
              StepRun(t[id := rows], [del, ins], [call], None)
  }

  /**
   * What `StoreChunks` does in each case: skipped, thrown before the DELETE,
   * refused DELETE, refused INSERT (the group is gone), or the group
   * replaced by one row per chunk.
   */
  lemma StoreChunksOutcome(t: Table, id: string, title: string, genre: string, chunks: seq<string>,
                           embed: EmbedCall -> EmbedReply, vector: seq<real> -> string,
                           reject: Query -> Option<string>)
    ensures var r := StoreChunks(t, id, title, genre, chunks, embed, vector, reject);
            chunks == [] ==> r == StepRun(t, [], [], None)
    ensures var r := StoreChunks(t, id, title, genre, chunks, embed, vector, reject);
            chunks != [] ==> r.calls == [CallFor(title, chunks)]
    ensures var r := StoreChunks(t, id, title, genre, chunks, embed, vector, reject);
            var reply := embed(CallFor(title, chunks));
            chunks != [] && reply.EmbedThrew? ==> r.error == Some(reply.message) && r.table == t && r.queries == []
    ensures var r := StoreChunks(t, id, title, genre, chunks, embed, vector, reject);
            var reply := embed(CallFor(title, chunks));
            chunks != [] && reply.Embedded? && !Matched(chunks, reply) ==>
              && r.error == Some(MismatchMessage(id, |chunks|, |reply.embeddings.GetOr([])|))
              && r.table == t && r.queries == []
    ensures var r := StoreChunks(t, id, title, genre, chunks, embed, vector, reject);
            Matched(chunks, embed(CallFor(title, chunks))) && reject(DeleteChunks(id)).Some? ==>
              r.error == reject(DeleteChunks(id)) && r.table == t && r.queries == []
    ensures var r := StoreChunks(t, id, title, genre, chunks, embed, vector, reject);
            var reply := embed(CallFor(title, chunks));
            Matched(chunks, reply) && reject(DeleteChunks(id)).None? ==>
              var rows := ChunkRows(id, title, genre, chunks, reply.embeddings.value, vector);
              && (reject(InsertOf(rows)).Some? ==>
                    r.error == reject(InsertOf(rows)) && r.table == t - {id} && r.queries == [DeleteChunks(id)])
              && (reject(InsertOf(rows)).None? ==>
                    r.error == None && r.table == t[id := rows] && r.queries == [DeleteChunks(id), InsertOf(rows)])
    ensures var r := StoreChunks(t, id, title, genre, chunks, embed, vector, reject);
            r.error.None? && chunks != [] ==>
              && id in r.table && |r.table[id]| == |chunks|
              && forall i :: 0 <= i < |chunks| ==>
                   var row := r.table[id][i];
                   row.compositionId == id && row.chunkIndex == i && row.content == chunks[i]
                   && row.title == title && row.genre == genre
  {
    if Matched(chunks, embed(CallFor(title, chunks))) {
      StoreChunksMatched(t, id, title, genre, chunks, embed, vector, reject);
    }
  }

  /** The whole loop body for one composition. */
  function IndexStep(t: Table, c: DbComposition, embed: EmbedCall -> EmbedReply,
                     vector: seq<real> -> string, reject: Query -> Option<string>): StepRun {
    StoreChunks(t, c.id, Title(c), Genre(c), ChunksOf(c), embed, vector, reject)
  }

  /** DELETE then INSERT of rows of one composition replaces its group. */
  lemma ReplaceGroup(t: Table, id: string, rows: seq<Row>)
    requires rows != [] && forall j :: 0 <= j < |rows| ==> rows[j].compositionId == id
    ensures ApplyAll(t, [DeleteChunks(id), InsertOf(rows)]) == t[id := rows]
  {
    var ins := InsertOf(rows);
    var qs := [DeleteChunks(id), ins];
    var t1 := t - {id};
    assert qs[0] == DeleteChunks(id) && qs[1..] == [ins] && [ins][1..] == [];
    assert ApplyAll(t, qs) == ApplyAll(t1, [ins]);
    assert ApplyAll(t1, [ins]) == Apply(t1, ins);
    BindParams(rows);
    assert Apply(t1, ins) == InsertRows(t1, rows);
    InsertRowsOne(t1, id, rows);
    assert id !in t1 && [] + rows == rows;
    assert InsertRows(t1, rows) == t1[id := rows];
    assert t1[id := rows] == t[id := rows];
    assert ApplyAll(t, qs) == t[id := rows];
  }

  /** The template literal for row i, from `base = i * 6`. */
  method PlaceholderFor(i: nat) returns (placeholder: string)
    ensures placeholder == PlaceholderText(ParamNumbers(i))
  {
    var base := i * PARAMS_PER_ROW;
    placeholder :=
      "($" + NatToString(base + 1) + ", $" + NatToString(base + 2) + ", $" + NatToString(base + 3)
      + ", $" + NatToString(base + 4) + ", $" + NatToString(base + 5) + ", $" + NatToString(base + 6)
      + "::vector(" + NatToString(EMBEDDING_DIM) + "))";
  }

  /** The placeholders of rows 0..i-1, one more pushed. */
  lemma PushPlaceholder(ps: seq<string>, p: string, i: nat)
    requires |ps| == i && forall j :: 0 <= j < i ==> ps[j] == PlaceholderText(ParamNumbers(j))
    requires p == PlaceholderText(ParamNumbers(i))
    ensures forall j :: 0 <= j < i + 1 ==> (ps + [p])[j] == PlaceholderText(ParamNumbers(j))
  {
  }

  /** Appending a row appends its six parameters. */
  lemma ParamsOfPush(rows: seq<Row>, i: nat)
    requires i < |rows|
    ensures ParamsOf(rows[..i + 1]) == ParamsOf(rows[..i]) + RowParams(rows[i])
  {
    assert rows[..i + 1][..i] == rows[..i];
  }

  /** The loop filling `values` and `placeholders`. */
  method BuildInsert(id: string, title: string, genre: string, chunks: seq<string>,
                     embs: seq<Option<seq<real>>>, vector: seq<real> -> string)
    returns (values: seq<SqlParam>, placeholders: seq<string>)
    ensures values == ParamsOf(ChunkRows(id, title, genre, chunks, embs, vector))
    ensures |placeholders| == |chunks|
    ensures forall i :: 0 <= i < |chunks| ==> placeholders[i] == PlaceholderText(ParamNumbers(i))
  {
    ghost var rows := ChunkRows(id, title, genre, chunks, embs, vector);
    values := [];
    placeholders := [];
    for i := 0 to |chunks|
      invariant values == ParamsOf(rows[..i])
      invariant |placeholders| == i
      invariant forall j :: 0 <= j < i ==> placeholders[j] == PlaceholderText(ParamNumbers(j))
    {
      var raw := if i < |embs| && embs[i].Some? then embs[i].value else [];
      var vec := vector(raw);
      var placeholder := PlaceholderFor(i);
      PushPlaceholder(placeholders, placeholder, i);
      placeholders := placeholders + [placeholder];
      ParamsOfPush(rows, i);
      assert RowParams(rows[i]) == [PText(id), PInt(i), PText(title), PText(genre), PText(chunks[i]), PText(vec)];
      values := values + [PText(id), PInt(i), PText(title), PText(genre), PText(chunks[i]), PText(vec)];
    }
    assert rows[..|chunks|] == rows;
  }

  /** The loop body after `chunkComposition`, run against the pool. */
  method StoreComposition(pool: Pool, id: string, title: string, genre: string, chunks: seq<string>,
                          embed: EmbedCall -> EmbedReply, vector: seq<real> -> string)
    returns (calls: seq<EmbedCall>, error: Option<string>)
    requires pool.open
    modifies pool
    ensures pool.open
    ensures var r := StoreChunks(old(pool.table), id, title, genre, chunks, embed, vector, pool.reject);
            pool.table == r.table && pool.log == old(pool.log) + r.queries && calls == r.calls && error == r.error
  {
    ghost var t0 := pool.table;
    ghost var log0 := pool.log;
    ghost var r := StoreChunks(t0, id, title, genre, chunks, embed, vector, pool.reject);
    if |chunks| == 0 {
      return [], None;
    }
    var toEmbed := EmbedTexts(title, chunks);
    var call := EmbedCall(toEmbed, title);
    calls := [call];
    var reply := embed(call);
    if reply.EmbedThrew? {
      return calls, Some(reply.message);
    }
    var embeddings := reply.embeddings.GetOr([]);
    if |embeddings| != |chunks| {
      return calls, Some(MismatchMessage(id, |chunks|, |embeddings|));
    }
    ghost var rows := ChunkRows(id, title, genre, chunks, embeddings, vector);
    StoreChunksMatched(t0, id, title, genre, chunks, embed, vector, pool.reject);
    var del := DeleteChunks(id);
    error := pool.Execute(del);
    if error.Some? {
      assert r == StepRun(t0, [], [call], error);
      return;
    }
    var values, placeholders := BuildInsert(id, title, genre, chunks, embeddings, vector);
    ghost var ins := InsertOf(rows);
    assert InsertChunks(Numbers(|chunks|), values) == ins;
    error := pool.Execute(InsertChunks(Numbers(|chunks|), values));
    if error.Some? {
      assert r == StepRun(t0 - {id}, [del], [call], error);
      return;
    }
    assert r == StepRun(t0[id := rows], [del, ins], [call], None);
    ReplaceGroup(t0, id, rows);
    assert [del, ins][1..] == [ins] && [ins][1..] == [];
    assert ApplyAll(t0, [del, ins]) == ApplyAll(Apply(t0, del), [ins]);
    assert ApplyAll(Apply(t0, del), [ins]) == Apply(Apply(t0, del), ins);
    LogAppend(log0, [del], [ins]);
  }

  /** `StoreChunks` once the embeddings match the chunks, spelled out. */
  lemma StoreChunksMatched(t: Table, id: string, title: string, genre: string, chunks: seq<string>,
                           embed: EmbedCall -> EmbedReply, vector: seq<real> -> string,
                           reject: Query -> Option<string>)
    requires Matched(chunks, embed(CallFor(title, chunks)))
    ensures var call := CallFor(title, chunks);
            var rows := ChunkRows(id, title, genre, chunks, embed(call).embeddings.value, vector);
            StoreChunks(t, id, title, genre, chunks, embed, vector, reject)
              == if reject(DeleteChunks(id)).Some? then StepRun(t, [], [call], reject(DeleteChunks(id)))
                 else if reject(InsertOf(rows)).Some? then StepRun(t - {id}, [DeleteChunks(id)], [call], reject(InsertOf(rows)))
                 else StepRun(t[id := rows], [DeleteChunks(id), InsertOf(rows)], [call], None)
  {
  }

  /** The loop body for one composition: the fields read with `?? ''`, the
      chunks, then the embedding and the replacement. */
  method IndexComposition(pool: Pool, c: DbComposition, embed: EmbedCall -> EmbedReply,
                          vector: seq<real> -> string)
    returns (calls: seq<EmbedCall>, error: Option<string>)
    requires pool.open
    modifies pool
    ensures pool.open
    ensures var r := IndexStep(old(pool.table), c, embed, vector, pool.reject);
            pool.table == r.table && pool.log == old(pool.log) + r.queries && calls == r.calls && error == r.error
  {
    var title := c.title.GetOr("");
    var genre := c.genre.GetOr("");
    var content := c.content.GetOr("");
    var chunks := Chunker.ChunkComposition(Chunker.Composition(title, content, genre));
    calls, error := StoreComposition(pool, c.id, title, genre, chunks, embed, vector);
  }

  // ---------------------------------------------------------------------
  // The whole run
  // ---------------------------------------------------------------------

  /** The compositions indexed in order; the first error ends the run. */
  function RunSteps(t: Table, comps: seq<DbComposition>, embed: EmbedCall -> EmbedReply,
                    vector: seq<real> -> string, reject: Query -> Option<string>): (r: StepRun)
    ensures r.table == ApplyAll(t, r.queries)
    decreases |comps|
  {
    if comps == [] then StepRun(t, [], [], None)
    else
      var s := IndexStep(t, comps[0], embed, vector, reject);
      if s.error.Some? then s
      else
        var rest := RunSteps(s.table, comps[1..], embed, vector, reject);
        ApplyAllAppend(t, s.queries, rest.queries);
        Then(s, rest)
  }

  /** A successful step followed by the rest of the run. */
  function Then(s: StepRun, rest: StepRun): StepRun {
    StepRun(rest.table, s.queries + rest.queries, s.calls + rest.calls, rest.error)
  }

  /** One step of the run, unfolded. */
  lemma RunStepsCons(t: Table, comps: seq<DbComposition>, embed: EmbedCall -> EmbedReply,
                     vector: seq<real> -> string, reject: Query -> Option<string>)
    requires comps != []
    ensures var s := IndexStep(t, comps[0], embed, vector, reject);
            RunSteps(t, comps, embed, vector, reject)
              == if s.error.Some? then s else Then(s, RunSteps(s.table, comps[1..], embed, vector, reject))
  {
  }

  lemma {:induction false} ApplyAllAppend(t: Table, qs: seq<Query>, more: seq<Query>)
    ensures ApplyAll(t, qs + more) == ApplyAll(ApplyAll(t, qs), more)
    decreases |qs|
  {
    if qs == [] {
      assert qs + more == more;
    } else {
      assert (qs + more)[0] == qs[0] && (qs + more)[1..] == qs[1..] + more;
      ApplyAllAppend(Apply(t, qs[0]), qs[1..], more);
    }
  }

  /** A failing composition aborts the run: compositions after it are not
      processed. */
  lemma {:induction false} FailureIgnoresLater(t: Table, comps: seq<DbComposition>, later: seq<DbComposition>,
                                               embed: EmbedCall -> EmbedReply, vector: seq<real> -> string, reject: Query -> Option<string>)
    requires RunSteps(t, comps, embed, vector, reject).error.Some?
    ensures RunSteps(t, comps + later, embed, vector, reject) == RunSteps(t, comps, embed, vector, reject)
    decreases |comps|
  {
    assert comps != [];
    ConsOfAppend(comps, later);
    RunStepsCons(t, comps, embed, vector, reject);
    RunStepsCons(t, comps + later, embed, vector, reject);
    var s := IndexStep(t, comps[0], embed, vector, reject);
    if s.error.None? {
      FailureIgnoresLater(s.table, comps[1..], later, embed, vector, reject);
    }
  }

  /**
   * A composition whose INSERT the database refuses (a vector literal that
   * is not a 768-dimensional vector, say) ends the run with that error after
   * its DELETE took effect: its old rows are gone and none replace them, and
   * no later composition is processed.
   */
  lemma RefusedInsertLosesRows(t: Table, c: DbComposition, later: seq<DbComposition>,
                               embed: EmbedCall -> EmbedReply, vector: seq<real> -> string,
                               reject: Query -> Option<string>)
    requires var chunks := ChunksOf(c);
             var reply := embed(CallFor(Title(c), chunks));
             && Matched(chunks, reply) && reject(DeleteChunks(c.id)).None?
             && reject(InsertOf(ChunkRows(c.id, Title(c), Genre(c), chunks, reply.embeddings.value, vector))).Some?
    ensures var r := RunSteps(t, [c] + later, embed, vector, reject);
            var chunks := ChunksOf(c);
            var reply := embed(CallFor(Title(c), chunks));
            && r.error == reject(InsertOf(ChunkRows(c.id, Title(c), Genre(c), chunks, reply.embeddings.value, vector)))
            && r.table == t - {c.id}
            && r.queries == [DeleteChunks(c.id)]
            && r.calls == [CallFor(Title(c), chunks)]
  {
    RunStepsCons(t, [c] + later, embed, vector, reject);
    assert ([c] + later)[0] == c;
    StoreChunksOutcome(t, c.id, Title(c), Genre(c), ChunksOf(c), embed, vector, reject);
  }

  lemma ConsOfAppend(comps: seq<DbComposition>, later: seq<DbComposition>)
    requires comps != []
    ensures (comps + later)[0] == comps[0] && (comps + later)[1..] == comps[1..] + later
  {
  }

  /** A composition's stored rows are untouched by a run that does not list it. */
  lemma {:induction false} RunKeepsUnlisted(t: Table, comps: seq<DbComposition>, id: string,
                                            embed: EmbedCall -> EmbedReply, vector: seq<real> -> string, reject: Query -> Option<string>)
    requires forall j :: 0 <= j < |comps| ==> comps[j].id != id
    ensures var t2 := RunSteps(t, comps, embed, vector, reject).table;
            (id in t2 <==> id in t) && (id in t ==> t2[id] == t[id])
    decreases |comps|
  {
    if comps != [] {
      var s := IndexStep(t, comps[0], embed, vector, reject);
      RunStepsCons(t, comps, embed, vector, reject);
      AgreeOutside(s.table, t, comps[0].id, id);
      if s.error.None? {
        RunKeepsUnlisted(s.table, comps[1..], id, embed, vector, reject);
      }
    }
  }

  /** Two tables equal but for one group agree on every other group. */
  lemma AgreeOutside(a: Table, b: Table, x: string, y: string)
    requires a - {x} == b - {x} && y != x
    ensures (y in a <==> y in b) && (y in a ==> a[y] == b[y])
  {
    assert y in a <==> y in a - {x};
    assert y in b <==> y in b - {x};
    if y in a {
      assert a[y] == (a - {x})[y];
      assert b[y] == (b - {x})[y];
    }
  }

  /** Prepends what earlier steps did to a run. */
  function After(queries: seq<Query>, calls: seq<EmbedCall>, r: StepRun): StepRun {
    StepRun(r.table, queries + r.queries, calls + r.calls, r.error)
  }

  lemma AfterThen(queries: seq<Query>, calls: seq<EmbedCall>, s: StepRun, rest: StepRun)
    ensures After(queries, calls, Then(s, rest)) == After(queries + s.queries, calls + s.calls, rest)
  {
    assert queries + (s.queries + rest.queries) == (queries + s.queries) + rest.queries;
    assert calls + (s.calls + rest.calls) == (calls + s.calls) + rest.calls;
  }

  lemma LogAppend(log0: seq<Query>, qs: seq<Query>, more: seq<Query>)
    ensures (log0 + qs) + more == log0 + (qs + more)
  {
  }

  /** The `for (const comp of compositions)` loop; a thrown error leaves it. */
  method IndexAll(pool: Pool, comps: seq<DbComposition>, embed: EmbedCall -> EmbedReply,
                  vector: seq<real> -> string)
    returns (calls: seq<EmbedCall>, error: Option<string>)
    requires pool.open
    modifies pool
    ensures pool.open
    ensures var r := RunSteps(old(pool.table), comps, embed, vector, pool.reject);
            pool.table == r.table && pool.log == old(pool.log) + r.queries && calls == r.calls && error == r.error
  {
    ghost var run := RunSteps(pool.table, comps, embed, vector, pool.reject);
    ghost var queries: seq<Query> := [];
    calls := [];
    error := None;
    var i := 0;
    assert run == After([], [], RunSteps(pool.table, comps[i..], embed, vector, pool.reject));
    while i < |comps|
      invariant 0 <= i <= |comps| && pool.open
      invariant pool.log == old(pool.log) + queries
      invariant run == After(queries, calls, RunSteps(pool.table, comps[i..], embed, vector, pool.reject))
      decreases |comps| - i
    {
      var stepError;
      ghost var stepQueries;
      calls, stepError, stepQueries := IndexNext(pool, comps, i, old(pool.log), queries, calls, run, embed, vector);
      queries := queries + stepQueries;
      if stepError.Some? {
        return calls, stepError;
      }
      i := i + 1;
    }
    RunDone(pool.table, comps[i..], queries, calls, run, embed, vector, pool.reject);
  }

  /** One iteration of the loop in `IndexAll`, with the run so far. */
  method IndexNext(pool: Pool, comps: seq<DbComposition>, i: nat, ghost log0: seq<Query>,
                   ghost queries: seq<Query>, calls: seq<EmbedCall>, ghost run: StepRun,
                   embed: EmbedCall -> EmbedReply, vector: seq<real> -> string)
    returns (calls2: seq<EmbedCall>, error: Option<string>, ghost stepQueries: seq<Query>)
    requires pool.open && i < |comps| && pool.log == log0 + queries
    requires run == After(queries, calls, RunSteps(pool.table, comps[i..], embed, vector, pool.reject))
    modifies pool
    ensures pool.open && pool.log == log0 + (queries + stepQueries)
    ensures error.Some? ==> run == StepRun(pool.table, queries + stepQueries, calls2, error)
    ensures error.None? ==> run == After(queries + stepQueries, calls2, RunSteps(pool.table, comps[i + 1..], embed, vector, pool.reject))
  {
    ghost var t := pool.table;
    RunAdvance(t, comps, i, queries, calls, run, embed, vector, pool.reject);
    var stepCalls;
    stepCalls, error := IndexComposition(pool, comps[i], embed, vector);
    ghost var s := IndexStep(t, comps[i], embed, vector, pool.reject);
    LogAppend(log0, queries, s.queries);
    stepQueries := s.queries;
    calls2 := calls + stepCalls;
  }

  /** One iteration of `IndexAll`: the run so far is followed by this step,
      and by the rest of the run when the step succeeds. */
  lemma RunAdvance(t: Table, comps: seq<DbComposition>, i: nat, queries: seq<Query>, calls: seq<EmbedCall>,
                   run: StepRun, embed: EmbedCall -> EmbedReply, vector: seq<real> -> string, reject: Query -> Option<string>)
    requires i < |comps|
    requires run == After(queries, calls, RunSteps(t, comps[i..], embed, vector, reject))
    ensures var s := IndexStep(t, comps[i], embed, vector, reject);
            && (s.error.Some? ==> run == After(queries, calls, s))
            && (s.error.None? ==> run == After(queries + s.queries, calls + s.calls,
                                               RunSteps(s.table, comps[i + 1..], embed, vector, reject)))
  {
    var s := IndexStep(t, comps[i], embed, vector, reject);
    assert comps[i..][0] == comps[i] && comps[i..][1..] == comps[i + 1..];
    RunStepsCons(t, comps[i..], embed, vector, reject);
    if s.error.None? {
      AfterThen(queries, calls, s, RunSteps(s.table, comps[i + 1..], embed, vector, reject));
    }
  }

  /** The end of `IndexAll`: nothing is left to run. */
  lemma RunDone(t: Table, rest: seq<DbComposition>, queries: seq<Query>, calls: seq<EmbedCall>,
                run: StepRun, embed: EmbedCall -> EmbedReply, vector: seq<real> -> string, reject: Query -> Option<string>)
    requires rest == [] && run == After(queries, calls, RunSteps(t, rest, embed, vector, reject))
    ensures run == StepRun(t, queries, calls, None)
  {
    assert queries + [] == queries && calls + [] == calls;
  }

  /** How `main` ended. */
  datatype Exit = Exit(code: nat, failure: Option<string>)

  /**
   * `main()` and its `catch`: both variables are required before the pool
   * is opened; the listing and every composition run inside `try`, and the
   * pool is ended in `finally` whether the run failed or not. Any failure
   * exits with code 1.
   */
  method RunReindex(env: map<string, string>, initial: Table, listing: Result<seq<DbComposition>, string>,
              embed: EmbedCall -> EmbedReply, vector: seq<real> -> string, reject: Query -> Option<string>)
    returns (exit: Exit, pool: Option<Pool>, calls: seq<EmbedCall>)
    ensures RequiredEnv(env, "DATABASE_URL").Err? ==>
              exit == Exit(1, Some(RequiredEnv(env, "DATABASE_URL").error)) && pool.None? && calls == []
    ensures RequiredEnv(env, "DATABASE_URL").Ok? && RequiredEnv(env, "GEMINI_API_KEY").Err? ==>
              exit == Exit(1, Some(RequiredEnv(env, "GEMINI_API_KEY").error)) && pool.None? && calls == []
    ensures pool.Some? <==> RequiredEnv(env, "DATABASE_URL").Ok? && RequiredEnv(env, "GEMINI_API_KEY").Ok?
    ensures pool.Some? ==> fresh(pool.value) && !pool.value.open
    ensures pool.Some? && listing.Err? ==>
              exit == Exit(1, Some(listing.error)) && pool.value.table == initial && pool.value.log == [] && calls == []
    ensures pool.Some? && listing.Ok? ==>
              var r := RunSteps(initial, listing.value, embed, vector, reject);
              && pool.value.table == r.table && pool.value.log == r.queries && calls == r.calls
              && exit == (if r.error.Some? then Exit(1, r.error) else Exit(0, None))
  {
    calls := [];
    var connectionString := RequiredEnv(env, "DATABASE_URL");
    if connectionString.Err? {
      return Exit(1, Some(connectionString.error)), None, calls;
    }
    var apiKey := RequiredEnv(env, "GEMINI_API_KEY");
    if apiKey.Err? {
      return Exit(1, Some(apiKey.error)), None, calls;
    }
    var p := new Pool(initial, reject);
    pool := Some(p);
    if listing.Err? {
      p.End();
      return Exit(1, Some(listing.error)), pool, calls;
    }
    var error;
    calls, error := IndexAll(p, listing.value, embed, vector);
    p.End();
    exit := if error.Some? then Exit(1, error) else Exit(0, None);
  }
}
