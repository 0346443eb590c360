// BuildFilesInfoResponse (core/files/service.metadata.go): join rows grouped by
// file, through an index map, against grouping by plain search.
module Grouping {
  import opened Rows
  import opened Text

  function Key(row: FilesWithChunks): string {
    Decimal(row.chunk.chunkId)
  }

  // The distinct file ids, in order of first appearance.
  function Ids(rows: seq<FilesWithChunks>): seq<string> {
    if rows == [] then []
    else
      var before := Ids(rows[..|rows| - 1]);
      var id := rows[|rows| - 1].file.id;
      if id in before then before else before + [id]
  }

  // The header a file gets: that of its first row.
  function FirstHeader(rows: seq<FilesWithChunks>, id: string): Header
    requires id in Ids(rows)
  {
    var before := rows[..|rows| - 1];
    if id in Ids(before) then FirstHeader(before, id) else HeaderOf(rows[|rows| - 1].file)
  }

  // The chunk map a file gets: the last row of a chunk wins.
  function ChunkMap(rows: seq<FilesWithChunks>, id: string): map<string, FilesWithChunks> {
    if rows == [] then map[]
    else
      var row := rows[|rows| - 1];
      var before := ChunkMap(rows[..|rows| - 1], id);
      if row.file.id == id then before[Key(row) := row] else before
  }

  function Group(rows: seq<FilesWithChunks>): (views: seq<FileView>)
    ensures |views| == |Ids(rows)|
  {
    seq(|Ids(rows)|, i requires 0 <= i < |Ids(rows)| =>
      FileView(FirstHeader(rows, Ids(rows)[i]), ChunkMap(rows, Ids(rows)[i])))
  }

  // ---- What naive grouping means ----

  lemma {:induction false} IdsAre(rows: seq<FilesWithChunks>)
    ensures forall i, j :: 0 <= i < j < |Ids(rows)| ==> Ids(rows)[i] != Ids(rows)[j]
    ensures forall id :: id in Ids(rows) <==> exists r :: r in rows && r.file.id == id
  {
    if rows != [] {
      var before, row := rows[..|rows| - 1], rows[|rows| - 1];
      IdsAre(before);
      assert rows == before + [row];
      assert forall r :: r in rows <==> r in before || r == row;
    }
  }

  // The order is that of first appearance: the ids of a prefix come first.
  lemma {:induction false} IdsOfPrefix(rows: seq<FilesWithChunks>, n: nat)
    requires n <= |rows|
    ensures Ids(rows[..n]) <= Ids(rows)
  {
    if n == |rows| {
      assert rows[..n] == rows;
    } else {
      IdsOfPrefix(rows[..|rows| - 1], n);
      assert rows[..|rows| - 1][..n] == rows[..n];
    }
  }

  // A file's header is that of its earliest row.
  lemma {:induction false} HeaderIsFirst(rows: seq<FilesWithChunks>, i: nat)
    requires i < |rows| && forall j :: 0 <= j < i ==> rows[j].file.id != rows[i].file.id
    ensures rows[i].file.id in Ids(rows) && FirstHeader(rows, rows[i].file.id) == HeaderOf(rows[i].file)
  {
    var before := rows[..|rows| - 1];
    IdsAre(before);
    if i < |before| {
      assert before[i] == rows[i];
      HeaderIsFirst(before, i);
    }
  }

  // No earlier row is of the same file.
  predicate IsFirst(rows: seq<FilesWithChunks>, i: nat) {
    i < |rows| && forall j :: 0 <= j < i ==> rows[j].file.id != rows[i].file.id
  }

  // What a listed file shows of its row.
  predicate Shows(h: Header, f: FileMetadata) {
    h.id == f.id && h.name == f.fileName && h.hash == f.fileHash && h.size == f.fileSize &&
    h.fileType == f.fileType && h.current == f.current && h.nChunks == f.nChunks && h.userId == f.userId
  }

  lemma {:induction false} EarliestRow(rows: seq<FilesWithChunks>, id: string) returns (i: nat)
    requires id in Ids(rows)
    ensures IsFirst(rows, i) && rows[i].file.id == id
    ensures Shows(FirstHeader(rows, id), rows[i].file)
  {
    var before := rows[..|rows| - 1];
    IdsAre(before);
    if id in Ids(before) {
      i := EarliestRow(before, id);
      assert before[i] == rows[i];
    } else {
      i := |before|;
    }
    HeaderIsFirst(rows, i);
  }

  // Every listed file shows its earliest row, and every file is listed.
  ghost predicate ShowsEarliest(rows: seq<FilesWithChunks>, views: seq<FileView>) {
    (forall k :: 0 <= k < |views| ==> exists i: nat :: IsFirst(rows, i) && Shows(views[k].header, rows[i].file)) &&
    forall r :: r in rows ==> exists k :: 0 <= k < |views| && views[k].header.id == r.file.id
  }

  lemma GroupShows(rows: seq<FilesWithChunks>)
    ensures ShowsEarliest(rows, Group(rows))
  {
    var ids, views := Ids(rows), Group(rows);
    forall k | 0 <= k < |views| ensures exists i: nat :: IsFirst(rows, i) && Shows(views[k].header, rows[i].file) {
      var i := EarliestRow(rows, ids[k]);
    }
    IdsAre(rows);
    forall r | r in rows ensures exists k :: 0 <= k < |views| && views[k].header.id == r.file.id {
      assert r.file.id in ids;
      var k :| 0 <= k < |ids| && ids[k] == r.file.id;
      var i := EarliestRow(rows, ids[k]);
      assert views[k].header == FirstHeader(rows, ids[k]) && views[k].header.id == ids[k];
    }
  }

  // An entry of the chunk map is the last row with that file and key.
  lemma {:induction false} ChunkMapIsLast(rows: seq<FilesWithChunks>, i: nat)
    requires i < |rows|
    requires forall j :: i < j < |rows| ==> rows[j].file.id != rows[i].file.id || Key(rows[j]) != Key(rows[i])
    ensures var m := ChunkMap(rows, rows[i].file.id); Key(rows[i]) in m && m[Key(rows[i])] == rows[i]
  {
    var before := rows[..|rows| - 1];
    if i < |before| {
      assert before[i] == rows[i];
      ChunkMapIsLast(before, i);
    }
  }

  lemma {:induction false} ChunkMapHas(rows: seq<FilesWithChunks>, id: string)
    ensures forall key :: key in ChunkMap(rows, id) <==> exists r :: r in rows && r.file.id == id && Key(r) == key
    ensures forall key :: key in ChunkMap(rows, id) ==>
      var r := ChunkMap(rows, id)[key]; r in rows && r.file.id == id && Key(r) == key
  {
    if rows != [] {
      var before, row := rows[..|rows| - 1], rows[|rows| - 1];
      ChunkMapHas(before, id);
      assert forall r :: r in rows <==> r in before || r == row by { assert rows == before + [row]; }
    }
  }

  lemma {:induction false} FirstHeaderFrom(rows: seq<FilesWithChunks>, id: string) returns (row: FilesWithChunks)
    requires id in Ids(rows)
    ensures row in rows && row.file.id == id && FirstHeader(rows, id) == HeaderOf(row.file)
  {
    var before := rows[..|rows| - 1];
    if id in Ids(before) {
      row := FirstHeaderFrom(before, id);
    } else {
      row := rows[|rows| - 1];
    }
  }

  lemma SomeMember<T>(q: seq<T>)
    ensures q == [] || exists x :: x in q
  {
    if q != [] {
      assert q[0] in q;
    }
  }

  // ---- Row order ----

  // Rows of one file share their header; one chunk of a file has one row value.
  predicate Coherent(rows: seq<FilesWithChunks>) {
    forall r, q :: r in rows && q in rows && r.file.id == q.file.id ==>
      HeaderOf(r.file) == HeaderOf(q.file) && (r.chunk.chunkId == q.chunk.chunkId ==> r == q)
  }

  ghost predicate SameRows(rows: seq<FilesWithChunks>, other: seq<FilesWithChunks>) {
    forall r :: r in rows <==> r in other
  }

  // The entry of a file, found by its id.
  function Entry(rows: seq<FilesWithChunks>, id: string): Option<FileView> {
    if id in Ids(rows) then Some(FileView(FirstHeader(rows, id), ChunkMap(rows, id))) else None
  }

  // Rows that arrive in another order (or repeated) leave every entry as it was.
  lemma OrderDoesNotMatter(rows: seq<FilesWithChunks>, other: seq<FilesWithChunks>, id: string)
    requires Coherent(rows) && SameRows(rows, other)
    ensures Entry(rows, id) == Entry(other, id)
  {
    IdsAre(rows);
    IdsAre(other);
    if id in Ids(rows) {
      var r := FirstHeaderFrom(rows, id);
      var q := FirstHeaderFrom(other, id);
      ChunkMapHas(rows, id);
      ChunkMapHas(other, id);
      var m, n := ChunkMap(rows, id), ChunkMap(other, id);
      assert forall key :: key in m <==> key in n;
      forall key | key in m ensures m[key] == n[key] {
        SameEntry(rows, m[key], n[key]);
      }
      assert m == n;
    }
  }

  lemma SameEntry(rows: seq<FilesWithChunks>, r: FilesWithChunks, q: FilesWithChunks)
    requires Coherent(rows) && r in rows && q in rows && r.file.id == q.file.id && Key(r) == Key(q)
    ensures r == q
  {
    DecimalInjective(r.chunk.chunkId, q.chunk.chunkId);
  }

  lemma MovedFirst(rows: seq<FilesWithChunks>, r: FilesWithChunks) returns (other: seq<FilesWithChunks>)
    requires r in rows
    ensures multiset(other) == multiset(rows) && other != [] && other[0] == r
  {
    var i :| 0 <= i < |rows| && rows[i] == r;
    other := [r] + rows[..i] + rows[i + 1..];
    assert rows == rows[..i] + [r] + rows[i + 1..];
  }

  lemma MovedLast(rows: seq<FilesWithChunks>, r: FilesWithChunks) returns (other: seq<FilesWithChunks>)
    requires r in rows
    ensures multiset(other) == multiset(rows) && other != [] && other[|other| - 1] == r
  {
    var i :| 0 <= i < |rows| && rows[i] == r;
    other := rows[..i] + rows[i + 1..] + [r];
    assert rows == rows[..i] + [r] + rows[i + 1..];
  }

  // Two rows that clash can each decide the entry of their file.
  lemma ClashShows(rows: seq<FilesWithChunks>, r: FilesWithChunks, q: FilesWithChunks)
    returns (one: seq<FilesWithChunks>, two: seq<FilesWithChunks>)
    requires r in rows && q in rows && r.file.id == q.file.id
    requires HeaderOf(r.file) != HeaderOf(q.file) || (r.chunk.chunkId == q.chunk.chunkId && r != q)
    ensures multiset(one) == multiset(rows) && multiset(two) == multiset(rows)
    ensures Entry(one, r.file.id) != Entry(two, r.file.id)
  {
    if HeaderOf(r.file) != HeaderOf(q.file) {
      one := MovedFirst(rows, r);
      two := MovedFirst(rows, q);
      HeaderIsFirst(one, 0);
      HeaderIsFirst(two, 0);
    } else {
      one := MovedLast(rows, r);
      two := MovedLast(rows, q);
      ChunkMapIsLast(one, |one| - 1);
      ChunkMapIsLast(two, |two| - 1);
      IdsAre(one);
      IdsAre(two);
    }
  }

  // The order of the rows does not matter exactly if they are coherent.
  lemma OrderMattersIff(rows: seq<FilesWithChunks>)
    ensures Coherent(rows) <==>
      forall other, id :: multiset(other) == multiset(rows) ==> Entry(other, id) == Entry(rows, id)
  {
    if Coherent(rows) {
      forall other, id | multiset(other) == multiset(rows) ensures Entry(other, id) == Entry(rows, id) {
        PermutedRows(rows, other);
        OrderDoesNotMatter(rows, other, id);
      }
    } else {
      var r, q :| r in rows && q in rows && r.file.id == q.file.id &&
        !(HeaderOf(r.file) == HeaderOf(q.file) && (r.chunk.chunkId == q.chunk.chunkId ==> r == q));
      var one, two := ClashShows(rows, r, q);
      assert Entry(one, r.file.id) != Entry(rows, r.file.id) || Entry(two, r.file.id) != Entry(rows, r.file.id);
    }
  }

  lemma PermutedRows(rows: seq<FilesWithChunks>, other: seq<FilesWithChunks>)
    requires multiset(rows) == multiset(other)
    ensures SameRows(rows, other)
  {
    forall r ensures r in rows <==> r in other {
      assert r in rows <==> r in multiset(rows);
      assert r in other <==> r in multiset(other);
    }
  }

  // ---- The code ----

  class FileInfoResponse {
    const header: Header
    var chunks: map<string, FilesWithChunks>

    constructor (header: Header)
      ensures this.header == header && chunks == map[]
    {
      this.header := header;
      chunks := map[];
    }

    function View(): FileView
      reads this
    {
      FileView(header, chunks)
    }
  }

  // Distinct objects that hold the given views.
  ghost predicate Holds(infos: seq<FileInfoResponse>, views: seq<FileView>)
    reads infos
  {
    |infos| == |views| &&
    (forall i, j :: 0 <= i < j < |infos| ==> infos[i] != infos[j]) &&
    forall i :: 0 <= i < |infos| ==> infos[i].View() == views[i]
  }

  // What one more row does to the ids and the views.
  ghost predicate Stepped(ids: seq<string>, before: seq<FileView>, row: FilesWithChunks,
                          ids': seq<string>, after: seq<FileView>) {
    |before| == |ids| && |after| == |ids'| &&
    if row.file.id in ids then
      ids' == ids &&
      forall i :: 0 <= i < |ids| ==>
        after[i] == (if ids[i] == row.file.id
                     then FileView(before[i].header, before[i].chunks[Key(row) := row])
                     else before[i])
    else
      ids' == ids + [row.file.id] &&
      after == before + [FileView(HeaderOf(row.file), map[Key(row) := row])]
  }

  lemma GroupStep(rows: seq<FilesWithChunks>, row: FilesWithChunks)
    ensures Stepped(Ids(rows), Group(rows), row, Ids(rows + [row]), Group(rows + [row]))
  {
    var all := rows + [row];
    assert all[..|all| - 1] == rows;
    if row.file.id !in Ids(rows) {
      IdsAre(rows);
      ChunkMapHas(rows, row.file.id);
      assert ChunkMap(rows, row.file.id).Keys == {};
      assert ChunkMap(rows, row.file.id) == map[];
    }
  }

  lemma NextRow(rows: seq<FilesWithChunks>, n: nat)
    requires n < |rows|
    ensures Stepped(Ids(rows[..n]), Group(rows[..n]), rows[n], Ids(rows[..n + 1]), Group(rows[..n + 1]))
    ensures forall i, j :: 0 <= i < j < |Ids(rows[..n])| ==> Ids(rows[..n])[i] != Ids(rows[..n])[j]
  {
    assert rows[..n + 1] == rows[..n] + [rows[n]];
    GroupStep(rows[..n], rows[n]);
    IdsAre(rows[..n]);
  }

  // The index map finds what a search through the ids would find.
  ghost predicate IndexAgrees(seen: map<string, nat>, ids: seq<string>) {
    (forall id :: id in seen <==> id in ids) &&
    forall id :: id in seen ==> seen[id] < |ids| && ids[seen[id]] == id
  }

  method BuildFilesInfoResponse(files: seq<FilesWithChunks>) returns (infos: seq<FileInfoResponse>)
    ensures fresh(infos)
    ensures Holds(infos, Group(files))
    ensures ShowsEarliest(files, Group(files))
  {
    GroupShows(files);
    infos := [];
    var seen: map<string, nat> := map[];
    var i := 0;
    ghost var ids, views := Ids(files[..0]), Group(files[..0]);
    for n := 0 to |files|
      invariant i == |infos|
      invariant fresh(infos)
      invariant ids == Ids(files[..n]) && views == Group(files[..n])
      invariant Holds(infos, views) && IndexAgrees(seen, ids)
    {
      NextRow(files, n);
      ghost var ids', views' := Ids(files[..n + 1]), Group(files[..n + 1]);
      infos, seen, i := AddRow(files[n], infos, seen, i, ids, views, ids', views');
      ids, views := ids', views';
    }
    assert files[..|files|] == files;
  }

  // The loop body.
  method AddRow(file: FilesWithChunks, infos: seq<FileInfoResponse>, seen: map<string, nat>, i: nat,
                ghost ids: seq<string>, ghost views: seq<FileView>,
                ghost ids': seq<string>, ghost views': seq<FileView>)
    returns (infos': seq<FileInfoResponse>, seen': map<string, nat>, i': nat)
    requires i == |infos| && Holds(infos, views) && IndexAgrees(seen, ids)
    requires Stepped(ids, views, file, ids', views')
    requires forall i, j :: 0 <= i < j < |ids| ==> ids[i] != ids[j]
    modifies infos
    ensures i' == |infos'| && Holds(infos', views') && IndexAgrees(seen', ids')
    ensures forall k :: 0 <= k < |infos'| ==> (k < |infos| && infos'[k] == infos[k]) || fresh(infos'[k])
  {
    var fileInfo := new FileInfoResponse(HeaderOf(file.file));
    var version := Decimal(file.chunk.chunkId);
    if file.file.id !in seen {
      seen' := seen[file.file.id := i];
      fileInfo.chunks := fileInfo.chunks[version := file];
      infos' := infos + [fileInfo];
      i' := i + 1;
    } else {
      infos', seen', i' := infos, seen, i;
      var f := infos[seen[file.file.id]];
      f.chunks := f.chunks[version := file];
    }
  }
}
