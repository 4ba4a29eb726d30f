/**
 * The medical knowledge base of medical_knowledge.go: a table of seven
 * entries filled once when the base is built, and a search that keeps every
 * entry whose key contains the query or lies inside it, or whose lower-cased
 * topic contains it.
 */
module MedicalKnowledge {
  import opened Strings

  /** One entry; only the topic takes part in the search, the prose fields are not modelled. */
  datatype MedicalInfo = MedicalInfo(topic: string)

  /** The seven entries written by initializeKnowledge (medical_knowledge.go:101-311). */
  const Table: map<string, MedicalInfo> := map[
    "痛风" := MedicalInfo("痛风 (Gout)"),
    "高尿酸血症" := MedicalInfo("高尿酸血症 (Hyperuricemia)"),
    "尿酸" := MedicalInfo("尿酸 (Uric Acid)"),
    "炎症" := MedicalInfo("炎症指标 (Inflammatory Markers)"),
    "肾功能" := MedicalInfo("肾功能 (Kidney Function)"),
    "关节炎" := MedicalInfo("痛风性关节炎 (Gouty Arthritis)"),
    "痛风石" := MedicalInfo("痛风石 (Tophi)")]

  /** The reply of Call when nothing matches (medical_knowledge.go:69). */
  const NotFoundMessage := "未找到相关医学知识。请尝试使用以下关键词：痛风、高尿酸血症、尿酸、关节炎、痛风石、肾功能、炎症等。"

  /** The test of searchKnowledge (medical_knowledge.go:91-92). */
  predicate Matches(query: string, key: string, info: MedicalInfo) {
    Contains(query, key) || Contains(key, query) || Contains(ToLower(info.topic), query)
  }

  /** The keys of the entries a query matches. */
  function MatchingKeys(knowledge: map<string, MedicalInfo>, query: string): set<string> {
    set key | key in knowledge && Matches(query, key, knowledge[key])
  }

  /**
   * `results` lists the entries of `keys`, which are distinct and are exactly
   * the matching keys, in some order.
   */
  ghost predicate IsSearchResult(knowledge: map<string, MedicalInfo>, query: string,
                           keys: seq<string>, results: seq<MedicalInfo>) {
    && |keys| == |results|
    && (forall i :: 0 <= i < |keys| ==> keys[i] in knowledge && results[i] == knowledge[keys[i]])
    && (forall i, j :: 0 <= i < j < |keys| ==> keys[i] != keys[j])
    && (forall key :: key in keys <==> key in MatchingKeys(knowledge, query))
  }

  /** Call trims the input and lower-cases it before searching (medical_knowledge.go:66). */
  function NormalizeQuery(input: string): string {
    ToLower(TrimSpace(input))
  }

  /** The reply of Call: the entries found, or the fixed not-found message. */
  datatype Reply = Found(entries: seq<MedicalInfo>) | NotFound(message: string)

  class MedicalKnowledgeBase {
    var knowledge: map<string, MedicalInfo>

    /** NewMedicalKnowledgeBase: an empty table, then filled by initializeKnowledge. */
    constructor ()
      ensures knowledge == Table
    {
      knowledge := map[];
      new;
      InitializeKnowledge();
    }

    /** initializeKnowledge: writes the seven entries into the table, one after the other. */
    method InitializeKnowledge()
      modifies this
      ensures knowledge == old(knowledge)
        ["痛风" := Table["痛风"]]["高尿酸血症" := Table["高尿酸血症"]]["尿酸" := Table["尿酸"]]
        ["炎症" := Table["炎症"]]["肾功能" := Table["肾功能"]]["关节炎" := Table["关节炎"]]
        ["痛风石" := Table["痛风石"]]
    {
      knowledge := knowledge["痛风" := MedicalInfo("痛风 (Gout)")];
      knowledge := knowledge["高尿酸血症" := MedicalInfo("高尿酸血症 (Hyperuricemia)")];
      knowledge := knowledge["尿酸" := MedicalInfo("尿酸 (Uric Acid)")];
      knowledge := knowledge["炎症" := MedicalInfo("炎症指标 (Inflammatory Markers)")];
      knowledge := knowledge["肾功能" := MedicalInfo("肾功能 (Kidney Function)")];
      knowledge := knowledge["关节炎" := MedicalInfo("痛风性关节炎 (Gouty Arthritis)")];
      knowledge := knowledge["痛风石" := MedicalInfo("痛风石 (Tophi)")];
    }

    /**
     * searchKnowledge: visits the entries in an unspecified order and keeps the
     * matching ones; `keys` records which entry each result came from.
     */
    method SearchKnowledge(query: string) returns (results: seq<MedicalInfo>, ghost keys: seq<string>)
      ensures IsSearchResult(knowledge, query, keys, results)
    {
      results, keys := [], [];
      var remaining := knowledge.Keys;
      while remaining != {}
        invariant remaining <= knowledge.Keys
        invariant |keys| == |results|
        invariant forall i :: 0 <= i < |keys| ==> keys[i] in knowledge && results[i] == knowledge[keys[i]]
        invariant forall i :: 0 <= i < |keys| ==> keys[i] !in remaining
        invariant forall i, j :: 0 <= i < j < |keys| ==> keys[i] != keys[j]
        invariant forall key :: key in keys <==> key in MatchingKeys(knowledge, query) && key !in remaining
        decreases remaining
      {
        var key :| key in remaining;
        var info := knowledge[key];
        if Matches(query, key, info) {
          results := results + [info];
          keys := keys + [key];
        }
        remaining := remaining - {key};
      }
    }

    /**
     * The part of Call that decides the reply (medical_knowledge.go:65-70): the
     * normalised query is searched, and an empty result gives the fixed message.
     */
    method Call(input: string) returns (reply: Reply)
      ensures reply.NotFound? <==> MatchingKeys(knowledge, NormalizeQuery(input)) == {}
      ensures reply.NotFound? ==> reply.message == NotFoundMessage
      ensures reply.Found? ==> exists keys :: IsSearchResult(knowledge, NormalizeQuery(input), keys, reply.entries)
    {
      var results, keys := SearchKnowledge(ToLower(TrimSpace(input)));
      if |results| == 0 {
        assert forall key :: key !in keys;
        return NotFound(NotFoundMessage);
      }
      assert keys[0] in MatchingKeys(knowledge, NormalizeQuery(input));
      reply := Found(results);
    }
  }
}
