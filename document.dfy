/**
 * The document a source agent collects (`source_agents/document.py`): its S3 key and the
 * Bedrock knowledge base record it is uploaded as.
 * The timestamp is a calendar date plus the text `isoformat()` gives for it; the clock is not modelled.
 */
module Documents {
  import opened Wrappers
  import opened Text
  import opened Dicts
  import opened Json

  /** A `datetime` as far as the key and the record use it. */
  datatype Timestamp = Timestamp(year: nat, month: nat, day: nat, iso: string)

  datatype Document = Document(
    content: string,
    sourceType: string,
    sourceId: string,
    title: Option<string>,
    author: Option<string>,
    timestamp: Timestamp,
    tags: seq<string>,
    category: string,
    metadata: Dict<string, Value>)

  /** The dataclass defaults: no title or author, no tags, category `"general"`, no extra metadata. */
  function NewDocument(content: string, sourceType: string, sourceId: string, now: Timestamp): (d: Document)
    ensures d.content == content && d.sourceType == sourceType && d.sourceId == sourceId && d.timestamp == now
    ensures d.title.None? && d.author.None? && d.tags == [] && d.category == "general" && d.metadata == []
  {
    Document(content, sourceType, sourceId, None, None, now, [], "general", [])
  }

  /** `strftime("%Y/%m/%d")` */
  function DatePrefix(t: Timestamp): string {
    ZeroPad(t.year, 4) + "/" + ZeroPad(t.month, 2) + "/" + ZeroPad(t.day, 2)
  }

  /** `source_id.replace("/", "_").replace("\\", "_")` */
  function SafeId(sourceId: string): (r: string)
    ensures |r| == |sourceId|
    ensures forall i :: 0 <= i < |r| ==> r[i] != '/' && r[i] != '\\'
    ensures forall i :: 0 <= i < |r| ==> (sourceId[i] == '/' || sourceId[i] == '\\' ==> r[i] == '_')
    ensures forall i :: 0 <= i < |r| ==> (sourceId[i] != '/' && sourceId[i] != '\\' ==> r[i] == sourceId[i])
  {
    ReplaceChar(ReplaceChar(sourceId, '/', '_'), '\\', '_')
  }

  /** `to_s3_key`: `category/YYYY/MM/DD/source_type/safe_id.json`. */
  function ToS3Key(d: Document): (r: string)
    ensures StartsWith(r, d.category + "/")
    ensures EndsWith(r, "/" + SafeId(d.sourceId) + ".json")
  {
    var head := d.category + "/";
    var tail := "/" + SafeId(d.sourceId) + ".json";
    var key := head + (DatePrefix(d.timestamp) + "/" + d.sourceType) + tail;
    assert key[..|head|] == head;
    assert key[|key| - |tail|..] == tail;
    key
  }

  /** The file name of the key, after the last `/`, is the safe id with `.json`: a `/` in the source id
      cannot open another folder. */
  lemma KeyFileName(d: Document)
    ensures var k := ToS3Key(d); var f := SafeId(d.sourceId) + ".json";
      && |k| > |f| && k[|k| - |f| - 1] == '/' && k[|k| - |f|..] == f
      && forall i :: |k| - |f| <= i < |k| ==> k[i] != '/'
  {
    var s := SafeId(d.sourceId);
    JsonNameSlashFree(s);
    assert "/" + s + ".json" == "/" + (s + ".json");
    SlashFreeSegment(ToS3Key(d), s + ".json");
  }

  /** A string ending in `/` and a segment without `/` has that segment after its last `/`. */
  lemma SlashFreeSegment(k: string, f: string)
    requires EndsWith(k, "/" + f)
    requires forall i :: 0 <= i < |f| ==> f[i] != '/'
    ensures |k| > |f| && k[|k| - |f| - 1] == '/' && k[|k| - |f|..] == f
    ensures forall i :: |k| - |f| <= i < |k| ==> k[i] != '/'
  {
    var t := "/" + f;
    var n := |k| - |t|;
    assert k[n] == k[n..][0];
    assert k[n + 1..] == k[n..][1..];
    assert t[1..] == f;
    forall i | n + 1 <= i < |k| ensures k[i] != '/' {
      assert k[i] == k[n..][i - n];
      assert t[i - n] == f[i - n - 1];
    }
  }

  /** Appending `.json` to a name without `/` adds none. */
  lemma JsonNameSlashFree(s: string)
    requires forall i :: 0 <= i < |s| ==> s[i] != '/'
    ensures forall i :: 0 <= i < |s + ".json"| ==> (s + ".json")[i] != '/'
  {
    forall i | 0 <= i < |s + ".json"| ensures (s + ".json")[i] != '/' {
      if i >= |s| { assert (s + ".json")[i] == ".json"[i - |s|]; }
    }
  }

  /** What `to_bedrock_format` returns. */
  datatype BedrockRecord = BedrockRecord(content: string, metadata: Dict<string, Value>)

  /** The metadata every record carries, before the document's own metadata is spread over it; the
      dict display is built by inserting its entries in order. */
  function BaseMetadata(d: Document): (r: Dict<string, Value>)
    ensures Keys(r) == {"source_type", "source_id", "title", "timestamp", "tags", "category"}
    ensures Get(r, "source_type") == Some(Str(d.sourceType)) && Get(r, "source_id") == Some(Str(d.sourceId))
    ensures Get(r, "title") == Some(Str(if d.title.Some? then d.title.value else ""))
    ensures Get(r, "timestamp") == Some(Str(d.timestamp.iso)) && Get(r, "tags") == Some(Str(Join(",", d.tags)))
    ensures Get(r, "category") == Some(Str(d.category))
  {
    var r := [("source_type", Str(d.sourceType)), ("source_id", Str(d.sourceId)),
              ("title", Str(if d.title.Some? then d.title.value else "")), ("timestamp", Str(d.timestamp.iso)),
              ("tags", Str(Join(",", d.tags))), ("category", Str(d.category))];
    BaseEntries(r);
    r
  }

  /** Reading the six entries of the base metadata, one position at a time. */
  lemma BaseEntries(r: Dict<string, Value>)
    requires |r| == 6
    requires r[0].0 == "source_type" && r[1].0 == "source_id" && r[2].0 == "title"
    requires r[3].0 == "timestamp" && r[4].0 == "tags" && r[5].0 == "category"
    ensures Keys(r) == {"source_type", "source_id", "title", "timestamp", "tags", "category"}
    ensures Get(r, "source_type") == Some(r[0].1) && Get(r, "source_id") == Some(r[1].1)
    ensures Get(r, "title") == Some(r[2].1) && Get(r, "timestamp") == Some(r[3].1)
    ensures Get(r, "tags") == Some(r[4].1) && Get(r, "category") == Some(r[5].1)
  {
    forall k | k in Keys(r) ensures k in {"source_type", "source_id", "title", "timestamp", "tags", "category"} {
      KeysIndex(r, k);
    }
    DistinctGet(r, 0);
    DistinctGet(r, 1);
    DistinctGet(r, 2);
    DistinctGet(r, 3);
    DistinctGet(r, 4);
    DistinctGet(r, 5);
  }

  /** `to_bedrock_format` */
  function ToBedrockFormat(d: Document): (r: BedrockRecord)
    ensures r.content == d.content
    ensures Keys(r.metadata) == Keys(BaseMetadata(d)) + Keys(d.metadata)
  {
    BedrockRecord(d.content, Merge(BaseMetadata(d), d.metadata))
  }

  /** The record's metadata: a key the document's own metadata sets has that value (it is spread
      last), and every other base key has its base value. */
  lemma BedrockMetadata(d: Document, k: string)
    requires DistinctKeys(d.metadata)
    ensures Get(ToBedrockFormat(d).metadata, k) ==
            if k in Keys(d.metadata) then Get(d.metadata, k) else Get(BaseMetadata(d), k)
  {
    MergeGet(BaseMetadata(d), d.metadata, k);
  }

  /** Unless the document's own metadata overrides them, the record carries the source fields, the
      title or `""`, the timestamp, the tags joined with commas (no tags give `""`) and the category. */
  lemma BedrockBaseFields(d: Document)
    requires DistinctKeys(d.metadata)
    ensures var m := ToBedrockFormat(d).metadata; var own := Keys(d.metadata);
      && ("source_type" !in own ==> Get(m, "source_type") == Some(Str(d.sourceType)))
      && ("source_id" !in own ==> Get(m, "source_id") == Some(Str(d.sourceId)))
      && ("title" !in own ==> Get(m, "title") == Some(Str(if d.title.Some? then d.title.value else "")))
      && ("timestamp" !in own ==> Get(m, "timestamp") == Some(Str(d.timestamp.iso)))
      && ("tags" !in own ==> Get(m, "tags") == Some(Str(Join(",", d.tags))))
      && ("tags" !in own && d.tags == [] ==> Get(m, "tags") == Some(Str("")))
      && ("category" !in own ==> Get(m, "category") == Some(Str(d.category)))
  {
    BedrockMetadata(d, "source_type");
    BedrockMetadata(d, "source_id");
    BedrockMetadata(d, "title");
    BedrockMetadata(d, "timestamp");
    BedrockMetadata(d, "tags");
    BedrockMetadata(d, "category");
  }
}
