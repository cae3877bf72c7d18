/** Which documents an analysis is recorded against, and in which version
    (services/ai_analysis/app/main.py, `_analysis_context`). */
module DocumentVersions {
  import opened Repository

  datatype Chunk = Chunk(documentId: string, version: Option<string>)

  const UNKNOWN := "unknown"

  /** `chunk.document_version or "unknown"`: absent and empty alike. */
  function VersionOf(c: Chunk): string {
    if c.version.Some? && c.version.value != "" then c.version.value else UNKNOWN
  }

  function Ids(chunks: seq<Chunk>): seq<string> {
    seq(|chunks|, i requires 0 <= i < |chunks| => chunks[i].documentId)
  }

  /** `dict.fromkeys`: first occurrences, in order. */
  function FirstSeen(ids: seq<string>): seq<string> {
    if ids == [] then []
    else
      var front := FirstSeen(ids[..|ids| - 1]);
      if ids[|ids| - 1] in front then front else front + [ids[|ids| - 1]]
  }

  /** A dict comprehension over the chunks: the last one wins. */
  function FromChunks(chunks: seq<Chunk>): map<string, string> {
    if chunks == [] then map[]
    else FromChunks(chunks[..|chunks| - 1])[chunks[|chunks| - 1].documentId := VersionOf(chunks[|chunks| - 1])]
  }

  /** The last chunk of a document, if it has any. */
  ghost predicate LastChunk(chunks: seq<Chunk>, id: string, k: nat) {
    k < |chunks| && chunks[k].documentId == id && forall j | k < j < |chunks| :: chunks[j].documentId != id
  }

  ghost predicate NoRepeats(s: seq<string>) {
    forall i, j | 0 <= i < j < |s| :: s[i] != s[j]
  }

  /** `lookup` is the knowledge service's or the repository's answer: the stored
      version of a document it knows. A found document without a version is
      answered with "unknown" already. */
  method Assemble(requested: seq<string>, chunks: seq<Chunk>, lookup: string -> Option<string>)
    returns (related: seq<string>, versions: map<string, string>)
    ensures related == FirstSeen(requested + Ids(chunks))
    ensures versions.Keys == set id | id in related
    ensures forall id | id in versions ::
              versions[id] == if id in FromChunks(chunks) then FromChunks(chunks)[id]
                              else if lookup(id).Some? then lookup(id).value else "unknown"
  {
    hide FirstSeen, FromChunks, Ids;
    related := FirstSeen(requested + Ids(chunks));
    versions := FromChunks(chunks);
    for i := 0 to |related|
      invariant versions.Keys == FromChunks(chunks).Keys + set j | 0 <= j < i :: related[j]
      invariant forall id | id in versions ::
                  versions[id] == if id in FromChunks(chunks) then FromChunks(chunks)[id]
                                  else if lookup(id).Some? then lookup(id).value else UNKNOWN
    {
      if related[i] !in versions {
        var document := lookup(related[i]);
        versions := versions[related[i] := if document.Some? then document.value else UNKNOWN];
      }
    }
    ChunksAreRelated(requested, chunks);
  }

  lemma ChunksAreRelated(requested: seq<string>, chunks: seq<Chunk>)
    ensures forall id | id in FromChunks(chunks) :: id in FirstSeen(requested + Ids(chunks))
  {
    hide FirstSeen, FromChunks;
    var all := requested + Ids(chunks);
    FirstSeenMembers(all);
    FromChunksKeys(chunks);
    forall id | id in FromChunks(chunks) ensures id in FirstSeen(all) {
      var k :| 0 <= k < |chunks| && chunks[k].documentId == id;
      assert all[|requested| + k] == id;
    }
  }

  lemma {:induction false} FirstSeenMembers(ids: seq<string>)
    ensures NoRepeats(FirstSeen(ids)) && forall id :: id in FirstSeen(ids) <==> id in ids
    decreases |ids|
  {
    if ids != [] {
      FirstSeenMembers(ids[..|ids| - 1]);
      assert ids == ids[..|ids| - 1] + [ids[|ids| - 1]];
    }
  }

  /** Two ids are listed in the order of their first occurrences. */
  lemma {:induction false} FirstSeenKeepsOrder(ids: seq<string>, i: nat, j: nat)
    requires i < j < |FirstSeen(ids)|
    ensures exists p, q :: 0 <= p < q < |ids| && ids[p] == FirstSeen(ids)[i] && ids[q] == FirstSeen(ids)[j]
                           && FirstSeen(ids)[j] !in ids[..q]
    decreases |ids|
  {
    var front, last := ids[..|ids| - 1], ids[|ids| - 1];
    var f := FirstSeen(front);
    FirstSeenMembers(front);
    if j < |f| {
      FirstSeenKeepsOrder(front, i, j);
      var p, q :| 0 <= p < q < |front| && front[p] == f[i] && front[q] == f[j] && f[j] !in front[..q];
      assert ids[p] == front[p] && ids[q] == front[q] && ids[..q] == front[..q];
    } else {
      assert f[i] in front;
      var p :| 0 <= p < |front| && front[p] == f[i];
      assert ids[p] == front[p] && ids[..|front|] == front;
    }
  }

  lemma {:induction false} FromChunksKeys(chunks: seq<Chunk>)
    ensures forall id :: id in FromChunks(chunks) <==> exists k :: 0 <= k < |chunks| && chunks[k].documentId == id
    decreases |chunks|
  {
    if chunks != [] {
      var front, last := chunks[..|chunks| - 1], chunks[|chunks| - 1];
      FromChunksKeys(front);
      forall id ensures id in FromChunks(chunks) <==> exists k :: 0 <= k < |chunks| && chunks[k].documentId == id {
        if k :| 0 <= k < |front| && front[k].documentId == id { assert chunks[k].documentId == id; }
        if k :| 0 <= k < |chunks| && chunks[k].documentId == id {
          if k < |front| { assert front[k].documentId == id; }
        }
        if id == last.documentId { assert chunks[|chunks| - 1].documentId == id; }
      }
    }
  }

  /** The version recorded from the chunks is that of the document's last chunk. */
  lemma {:induction false} LastChunkWins(chunks: seq<Chunk>, id: string, k: nat)
    requires LastChunk(chunks, id, k)
    ensures id in FromChunks(chunks)
    ensures forall v | chunks[k].version == Some(v) && v != "" :: FromChunks(chunks)[id] == v
    ensures chunks[k].version == None || chunks[k].version == Some("") ==> FromChunks(chunks)[id] == "unknown"
    decreases |chunks|
  {
    if k < |chunks| - 1 {
      var front := chunks[..|chunks| - 1];
      assert LastChunk(front, id, k) by {
        forall j | k < j < |front| ensures front[j].documentId != id { assert chunks[j].documentId != id; }
      }
      LastChunkWins(front, id, k);
    }
  }
}
