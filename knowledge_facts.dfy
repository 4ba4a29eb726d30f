/**
 * What the knowledge search answers: the empty query matches every entry, a
 * search result lists each matching entry exactly once, and the answers to the
 * queries the agent's own examples ask.
 */
module KnowledgeFacts {
  import opened Strings
  import opened MedicalKnowledge

  /** The table holds exactly the seven keys written by initializeKnowledge. */
  lemma TableKeys()
    ensures Table.Keys == {"痛风", "高尿酸血症", "尿酸", "炎症", "肾功能", "关节炎", "痛风石"}
  {
  }

  /** Every string contains the empty query, so it matches every entry. */
  lemma EmptyQueryMatchesAll(knowledge: map<string, MedicalInfo>)
    ensures MatchingKeys(knowledge, "") == knowledge.Keys
  {
    forall key | key in knowledge
      ensures Matches("", key, knowledge[key])
    {
      ContainsEmpty(key);
    }
  }

  /** The elements of a sequence without repetitions, counted. */
  lemma {:induction false} DistinctCount(keys: seq<string>)
    requires forall i, j :: 0 <= i < j < |keys| ==> keys[i] != keys[j]
    ensures |set key | key in keys| == |keys|
  {
    if keys != [] {
      var init := keys[..|keys| - 1];
      DistinctCount(init);
      var last := keys[|keys| - 1];
      assert (set key | key in keys) == (set key | key in init) + {last};
      assert last !in init;
    }
  }

  /** A search result has one entry per matching key: no entry is missed or repeated. */
  lemma SearchResultSize(knowledge: map<string, MedicalInfo>, query: string,
                         keys: seq<string>, results: seq<MedicalInfo>)
    requires IsSearchResult(knowledge, query, keys, results)
    ensures |results| == |MatchingKeys(knowledge, query)|
  {
    DistinctCount(keys);
    assert (set key | key in keys) == MatchingKeys(knowledge, query);
  }

  /** Where exactly two keys match, a search result holds their two entries and nothing else. */
  lemma TwoResults(knowledge: map<string, MedicalInfo>, query: string, keys: seq<string>,
                   results: seq<MedicalInfo>, a: string, b: string)
    requires IsSearchResult(knowledge, query, keys, results)
    requires a != b && MatchingKeys(knowledge, query) == {a, b}
    ensures |results| == 2
    ensures forall e :: e in results <==> e == knowledge[a] || e == knowledge[b]
  {
    SearchResultSize(knowledge, query, keys, results);
    assert a in keys && b in keys;
  }

  /** A reply as Call gives it, for a query that matches exactly two keys, lists their two entries. */
  lemma ReplyOfTwo(knowledge: map<string, MedicalInfo>, query: string, reply: Reply, a: string, b: string)
    requires reply.NotFound? <==> MatchingKeys(knowledge, query) == {}
    requires reply.Found? ==> exists keys :: IsSearchResult(knowledge, query, keys, reply.entries)
    requires a != b && MatchingKeys(knowledge, query) == {a, b}
    ensures reply.Found? && |reply.entries| == 2
    ensures exists keys :: IsSearchResult(knowledge, query, keys, reply.entries)
    ensures forall e :: e in reply.entries <==> e == knowledge[a] || e == knowledge[b]
  {
    assert a in MatchingKeys(knowledge, query);
    var keys :| IsSearchResult(knowledge, query, keys, reply.entries);
    TwoResults(knowledge, query, keys, reply.entries, a, b);
  }

  /** Lower-casing only turns A-Z into a-z, so it brings in no other character. */
  lemma LowerLacks(s: string, c: char)
    requires c !in s && !('A' <= c <= 'Z')
    requires 'a' <= c <= 'z' ==> (c as int - 32) as char !in s
    ensures c !in ToLower(s)
  {
    forall j | 0 <= j < |s|
      ensures ToLower(s)[j] != c
    {
      assert s[j] in s;
    }
  }

  /** A piece found at a position is contained. */
  lemma ContainsAt(s: string, sub: string, i: int)
    requires OccursAt(s, sub, i)
    ensures Contains(s, sub)
  {
    ContainsIff(s, sub);
  }

  /**
   * An entry does not match when its key has a character `d` missing from the
   * query and the query has a character `c` missing from the key and the topic.
   */
  lemma Unmatched(query: string, key: string, info: MedicalInfo, c: char, d: char)
    requires d in key && d !in query
    requires c in query && c !in key && c !in info.topic && !('A' <= c <= 'Z')
    requires 'a' <= c <= 'z' ==> (c as int - 32) as char !in info.topic
    ensures !Matches(query, key, info)
  {
    NotContainsAbsent(query, key, d);
    NotContainsAbsent(key, query, c);
    LowerLacks(info.topic, c);
    NotContainsAbsent(ToLower(info.topic), query, c);
  }

  /*
   * A concrete query is decided one entry at a time, following the order in
   * which initializeKnowledge writes the entries: each entry either leaves the
   * matching keys as they were or adds its own key.
   */

  /** An entry that does not match (for the reason of Unmatched) adds nothing. */
  lemma SkipEntry(m: map<string, MedicalInfo>, q: string, k: string, v: MedicalInfo, c: char, d: char)
    requires k !in m
    requires d in k && d !in q
    requires c in q && c !in k && c !in v.topic && !('A' <= c <= 'Z')
    requires 'a' <= c <= 'z' ==> (c as int - 32) as char !in v.topic
    ensures MatchingKeys(m[k := v], q) == MatchingKeys(m, q)
  {
    Unmatched(q, k, v, c, d);
    assert MatchingKeys(m[k := v], q) == MatchingKeys(m, q) by {
      forall key | key in MatchingKeys(m[k := v], q)
        ensures key in MatchingKeys(m, q)
      {
      }
    }
  }

  /** An entry that matches adds its key. */
  lemma KeepEntry(m: map<string, MedicalInfo>, q: string, k: string, v: MedicalInfo)
    requires k !in m
    requires Matches(q, k, v)
    ensures MatchingKeys(m[k := v], q) == MatchingKeys(m, q) + {k}
  {
  }

  /** Query 尿酸: the entry 痛风 does not match (the query's 尿 is in neither its key nor its topic, and its key's 痛 is not in the query). */
  lemma UricAcidSkipsGout(m: map<string, MedicalInfo>)
    requires "痛风" !in m
    ensures MatchingKeys(m["痛风" := MedicalInfo("痛风 (Gout)")], "尿酸") == MatchingKeys(m, "尿酸")
  {
    SkipEntry(m, "尿酸", "痛风", MedicalInfo("痛风 (Gout)"), '尿', '痛');
  }

  /** Query 尿酸: the entry 炎症 does not match (the query's 尿 is in neither its key nor its topic, and its key's 炎 is not in the query). */
  lemma UricAcidSkipsInflammation(m: map<string, MedicalInfo>)
    requires "炎症" !in m
    ensures MatchingKeys(m["炎症" := MedicalInfo("炎症指标 (Inflammatory Markers)")], "尿酸") == MatchingKeys(m, "尿酸")
  {
    SkipEntry(m, "尿酸", "炎症", MedicalInfo("炎症指标 (Inflammatory Markers)"), '尿', '炎');
  }

  /** Query 尿酸: the entry 肾功能 does not match (the query's 尿 is in neither its key nor its topic, and its key's 肾 is not in the query). */
  lemma UricAcidSkipsKidney(m: map<string, MedicalInfo>)
    requires "肾功能" !in m
    ensures MatchingKeys(m["肾功能" := MedicalInfo("肾功能 (Kidney Function)")], "尿酸") == MatchingKeys(m, "尿酸")
  {
    SkipEntry(m, "尿酸", "肾功能", MedicalInfo("肾功能 (Kidney Function)"), '尿', '肾');
  }

  /** Query 尿酸: the entry 关节炎 does not match (the query's 尿 is in neither its key nor its topic, and its key's 关 is not in the query). */
  lemma UricAcidSkipsArthritis(m: map<string, MedicalInfo>)
    requires "关节炎" !in m
    ensures MatchingKeys(m["关节炎" := MedicalInfo("痛风性关节炎 (Gouty Arthritis)")], "尿酸") == MatchingKeys(m, "尿酸")
  {
    SkipEntry(m, "尿酸", "关节炎", MedicalInfo("痛风性关节炎 (Gouty Arthritis)"), '尿', '关');
  }

  /** Query 尿酸: the entry 痛风石 does not match (the query's 尿 is in neither its key nor its topic, and its key's 痛 is not in the query). */
  lemma UricAcidSkipsTophi(m: map<string, MedicalInfo>)
    requires "痛风石" !in m
    ensures MatchingKeys(m["痛风石" := MedicalInfo("痛风石 (Tophi)")], "尿酸") == MatchingKeys(m, "尿酸")
  {
    SkipEntry(m, "尿酸", "痛风石", MedicalInfo("痛风石 (Tophi)"), '尿', '痛');
  }

  /** Query 糖尿病: the entry 痛风 does not match (the query's 糖 is in neither its key nor its topic, and its key's 痛 is not in the query). */
  lemma DiabetesSkipsGout(m: map<string, MedicalInfo>)
    requires "痛风" !in m
    ensures MatchingKeys(m["痛风" := MedicalInfo("痛风 (Gout)")], "糖尿病") == MatchingKeys(m, "糖尿病")
  {
    SkipEntry(m, "糖尿病", "痛风", MedicalInfo("痛风 (Gout)"), '糖', '痛');
  }

  /** Query 糖尿病: the entry 高尿酸血症 does not match (the query's 糖 is in neither its key nor its topic, and its key's 高 is not in the query). */
  lemma DiabetesSkipsHyperuricemia(m: map<string, MedicalInfo>)
    requires "高尿酸血症" !in m
    ensures MatchingKeys(m["高尿酸血症" := MedicalInfo("高尿酸血症 (Hyperuricemia)")], "糖尿病") == MatchingKeys(m, "糖尿病")
  {
    SkipEntry(m, "糖尿病", "高尿酸血症", MedicalInfo("高尿酸血症 (Hyperuricemia)"), '糖', '高');
  }

  /** Query 糖尿病: the entry 尿酸 does not match (the query's 糖 is in neither its key nor its topic, and its key's 酸 is not in the query). */
  lemma DiabetesSkipsUricAcid(m: map<string, MedicalInfo>)
    requires "尿酸" !in m
    ensures MatchingKeys(m["尿酸" := MedicalInfo("尿酸 (Uric Acid)")], "糖尿病") == MatchingKeys(m, "糖尿病")
  {
    SkipEntry(m, "糖尿病", "尿酸", MedicalInfo("尿酸 (Uric Acid)"), '糖', '酸');
  }

  /** Query 糖尿病: the entry 炎症 does not match (the query's 糖 is in neither its key nor its topic, and its key's 炎 is not in the query). */
  lemma DiabetesSkipsInflammation(m: map<string, MedicalInfo>)
    requires "炎症" !in m
    ensures MatchingKeys(m["炎症" := MedicalInfo("炎症指标 (Inflammatory Markers)")], "糖尿病") == MatchingKeys(m, "糖尿病")
  {
    SkipEntry(m, "糖尿病", "炎症", MedicalInfo("炎症指标 (Inflammatory Markers)"), '糖', '炎');
  }

  /** Query 糖尿病: the entry 肾功能 does not match (the query's 糖 is in neither its key nor its topic, and its key's 肾 is not in the query). */
  lemma DiabetesSkipsKidney(m: map<string, MedicalInfo>)
    requires "肾功能" !in m
    ensures MatchingKeys(m["肾功能" := MedicalInfo("肾功能 (Kidney Function)")], "糖尿病") == MatchingKeys(m, "糖尿病")
  {
    SkipEntry(m, "糖尿病", "肾功能", MedicalInfo("肾功能 (Kidney Function)"), '糖', '肾');
  }

  /** Query 糖尿病: the entry 关节炎 does not match (the query's 糖 is in neither its key nor its topic, and its key's 关 is not in the query). */
  lemma DiabetesSkipsArthritis(m: map<string, MedicalInfo>)
    requires "关节炎" !in m
    ensures MatchingKeys(m["关节炎" := MedicalInfo("痛风性关节炎 (Gouty Arthritis)")], "糖尿病") == MatchingKeys(m, "糖尿病")
  {
    SkipEntry(m, "糖尿病", "关节炎", MedicalInfo("痛风性关节炎 (Gouty Arthritis)"), '糖', '关');
  }

  /** Query 糖尿病: the entry 痛风石 does not match (the query's 糖 is in neither its key nor its topic, and its key's 痛 is not in the query). */
  lemma DiabetesSkipsTophi(m: map<string, MedicalInfo>)
    requires "痛风石" !in m
    ensures MatchingKeys(m["痛风石" := MedicalInfo("痛风石 (Tophi)")], "糖尿病") == MatchingKeys(m, "糖尿病")
  {
    SkipEntry(m, "糖尿病", "痛风石", MedicalInfo("痛风石 (Tophi)"), '糖', '痛');
  }

  /** 尿酸 finds the uric-acid entry and also the hyperuricemia entry, whose key contains it. */
  lemma UricAcidQuery()
    ensures MatchingKeys(Table, "尿酸") == {"尿酸", "高尿酸血症"}
  {
    var m0: map<string, MedicalInfo> := map[];
    var m1 := m0["痛风" := MedicalInfo("痛风 (Gout)")];
    var m2 := m1["高尿酸血症" := MedicalInfo("高尿酸血症 (Hyperuricemia)")];
    var m3 := m2["尿酸" := MedicalInfo("尿酸 (Uric Acid)")];
    var m4 := m3["炎症" := MedicalInfo("炎症指标 (Inflammatory Markers)")];
    var m5 := m4["肾功能" := MedicalInfo("肾功能 (Kidney Function)")];
    var m6 := m5["关节炎" := MedicalInfo("痛风性关节炎 (Gouty Arthritis)")];
    assert m6["痛风石" := MedicalInfo("痛风石 (Tophi)")] == Table;
    UricAcidSkipsGout(m0);
    ContainsAt("高尿酸血症", "尿酸", 1);
    KeepEntry(m1, "尿酸", "高尿酸血症", MedicalInfo("高尿酸血症 (Hyperuricemia)"));
    assert HasPrefix("尿酸", "尿酸");
    KeepEntry(m2, "尿酸", "尿酸", MedicalInfo("尿酸 (Uric Acid)"));
    UricAcidSkipsInflammation(m3);
    UricAcidSkipsKidney(m4);
    UricAcidSkipsArthritis(m5);
    UricAcidSkipsTophi(m6);
  }

  /** 糖尿病 (diabetes) is in no key and no topic, and no key lies inside it: nothing matches. */
  lemma DiabetesQuery()
    ensures MatchingKeys(Table, "糖尿病") == {}
  {
    var m0: map<string, MedicalInfo> := map[];
    var m1 := m0["痛风" := MedicalInfo("痛风 (Gout)")];
    var m2 := m1["高尿酸血症" := MedicalInfo("高尿酸血症 (Hyperuricemia)")];
    var m3 := m2["尿酸" := MedicalInfo("尿酸 (Uric Acid)")];
    var m4 := m3["炎症" := MedicalInfo("炎症指标 (Inflammatory Markers)")];
    var m5 := m4["肾功能" := MedicalInfo("肾功能 (Kidney Function)")];
    var m6 := m5["关节炎" := MedicalInfo("痛风性关节炎 (Gouty Arthritis)")];
    assert m6["痛风石" := MedicalInfo("痛风石 (Tophi)")] == Table;
    DiabetesSkipsGout(m0);
    DiabetesSkipsHyperuricemia(m1);
    DiabetesSkipsUricAcid(m2);
    DiabetesSkipsInflammation(m3);
    DiabetesSkipsKidney(m4);
    DiabetesSkipsArthritis(m5);
    DiabetesSkipsTophi(m6);
  }

  /** Lower-casing neither makes nor removes white space. */
  lemma LowerCharSpace(c: char)
    ensures IsSpace(LowerChar(c)) <==> IsSpace(c)
  {
  }

  /** What Call searches for is trimmed and lower-case, so normalising it again changes nothing. */
  lemma NormalizeQueryIdempotent(input: string)
    ensures IsTrimmed(NormalizeQuery(input))
    ensures forall i :: 0 <= i < |NormalizeQuery(input)| ==> !('A' <= NormalizeQuery(input)[i] <= 'Z')
    ensures NormalizeQuery(NormalizeQuery(input)) == NormalizeQuery(input)
  {
    var t := TrimSpace(input);
    var l := ToLower(t);
    ToLowerIdempotent(t);
    if l != [] {
      LowerCharSpace(t[0]);
      LowerCharSpace(t[|t| - 1]);
    }
    assert IsTrimmed(l);
    TrimSpaceOfTrimmed(l);
  }

  /** A query that is already trimmed and lower-case is searched as it is. */
  lemma NormalizeQueryKeeps(input: string)
    requires IsTrimmed(input)
    requires forall i :: 0 <= i < |input| ==> !('A' <= input[i] <= 'Z')
    ensures NormalizeQuery(input) == input
  {
    TrimSpaceOfTrimmed(input);
    LowerOfLower(input);
  }

  lemma UricAcidNormalized()
    ensures NormalizeQuery("尿酸") == "尿酸"
  {
    NormalizeQueryKeeps("尿酸");
  }

  lemma DiabetesNormalized()
    ensures NormalizeQuery("糖尿病") == "糖尿病"
  {
    NormalizeQueryKeeps("糖尿病");
  }

  /**
   * Asking a fresh knowledge base about diabetes (糖尿病, or any input that
   * normalises to it) gives the fixed not-found reply.
   */
  method AskAboutDiabetes(input: string) returns (reply: Reply)
    requires NormalizeQuery(input) == "糖尿病"
    ensures reply == NotFound(NotFoundMessage)
  {
    DiabetesQuery();
    var base := new MedicalKnowledgeBase();
    reply := base.Call(input);
  }

  /**
   * Asking a fresh knowledge base about 尿酸 (or any input that normalises to
   * it) gives two entries, in some order: those of the keys 尿酸 and
   * 高尿酸血症, the matching keys by UricAcidQuery.
   */
  method AskAboutUricAcid(input: string) returns (reply: Reply)
    requires NormalizeQuery(input) == "尿酸"
    ensures reply.Found? && |reply.entries| == 2
    ensures exists keys :: IsSearchResult(Table, "尿酸", keys, reply.entries)
  {
    var base := new MedicalKnowledgeBase();
    reply := base.Call(input);
    UricAcidReply(reply);
  }

  /** Any reply Call may give to 尿酸 on the full table is a search result with two entries. */
  lemma UricAcidReply(reply: Reply)
    requires reply.NotFound? <==> MatchingKeys(Table, "尿酸") == {}
    requires reply.Found? ==> exists keys :: IsSearchResult(Table, "尿酸", keys, reply.entries)
    ensures reply.Found? && |reply.entries| == 2
    ensures exists keys :: IsSearchResult(Table, "尿酸", keys, reply.entries)
  {
    UricAcidQuery();
    ReplyOfTwo(Table, "尿酸", reply, "尿酸", "高尿酸血症");
  }
}
