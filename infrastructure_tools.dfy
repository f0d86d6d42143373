/** The tool layer (backend/tools/infrastructure_tools.py): the SOP
    corpus, the once-only construction of its retrieval index, the SOP search
    tool that formats the retrieved passages with their citations, and the
    simulated network-latency probe. */
module InfrastructureTools {
  import opened Wrappers
  import opened Text

  datatype SopMetadata = SopMetadata(source: string, section: string, errorCode: string)

  datatype SopEntry = SopEntry(content: string, metadata: SopMetadata)

  /** The SOP corpus the index is built from (`RAW_SOP_DATA`). */
  const RawSopData: seq<SopEntry> := [
    SopEntry(
      "\n        [E-503] Service Unavailable 대응 절차\n        1. 개요: 은행/카드사 시스템 과부하로 인한 응답 지연.\n        2. 진단: \n           - Ping 테스트 Latency 2000ms 이상 시 확정.\n           - Connection Timeout 로그 확인.\n        3. 조치:\n           - 1단계: 운영팀 및 담당자에게 SMS/Slack 전파.\n           - 2단계: 해당 기관 트래픽을 예비 라인으로 우회(Failover).\n           - 3단계: 10분 후 트래픽 복구 시도.\n        ",
      SopMetadata("SOP_Network_01.pdf", "E-503", "E-503")),
    SopEntry(
      "\n        [Triple_Fail] 다중 기관 동시 장애 대응\n        1. 개요: 3개 이상의 금융기관 동시 접속 불가. VAN사 게이트웨이 이슈 의심.\n        2. 조치:\n           - 즉시 'Critical' 등급 발령.\n           - CIO 및 비상대책본부(Call 119) 소집.\n           - 대고객 공지문(홈페이지/앱) 게시.\n           - 재해복구센터(DR) 전환 검토.\n        ",
      SopMetadata("SOP_Emergency_09.pdf", "Critical_Multi", "Triple_Fail")),
    SopEntry(
      "\n        [E-408] Request Timeout (VAN 구간)\n        1. 진단: KIS/NICE VAN사 응답 없음.\n        2. 조치: \n           - 3회 재시도 실패 시 핫라인 연락.\n           - 예비 VAN사로 즉시 라우팅 변경.\n        ",
      SopMetadata("SOP_VAN_Guide.pdf", "E-408", "E-408"))
  ]

  /** The retrieval index. Chunking and embedding are not modelled: the
      index is identified with the entries it was built from. */
  datatype VectorIndex = VectorIndex(entries: seq<SopEntry>)

  function BuildIndex(data: seq<SopEntry>): VectorIndex
  {
    VectorIndex(data)
  }

  /** The number of passages the retriever returns (`search_kwargs={"k": 3}`). */
  const RetrievalK: nat := 3

  /** A retrieved passage: its metadata and its text. */
  datatype SopHit = SopHit(source: string, section: string, content: string)

  /** The retriever keeps the `k` best-ranked passages, in rank order. */
  function Retrieve(ranked: seq<SopHit>): (docs: seq<SopHit>)
    ensures |docs| <= RetrievalK
    ensures |docs| == if |ranked| < RetrievalK then |ranked| else RetrievalK
    ensures docs == ranked[..|docs|]
  {
    if |ranked| <= RetrievalK then ranked else ranked[..RetrievalK]
  }

  const NotFoundText: string := "관련된 SOP 문서를 찾을 수 없습니다."

  /** The citation block of the `i`-th retrieved passage (numbered from 1). */
  function SopBlock(i: nat, hit: SopHit): string
  {
    "\n[문서 " + NatToString(i + 1) + "] 출처: " + hit.source + " | 섹션: " + hit.section
      + "\n내용: " + Strip(hit.content) + "\n"
  }

  /** The block of every passage, in retrieval order. */
  function Blocks(docs: seq<SopHit>): (blocks: seq<string>)
    ensures |blocks| == |docs|
    ensures forall i :: 0 <= i < |docs| ==> blocks[i] == SopBlock(i, docs[i])
  {
    seq(|docs|, i requires 0 <= i < |docs| => SopBlock(i, docs[i]))
  }

  /** The concatenation of `parts`, left to right. */
  function Concat(parts: seq<string>): string
  {
    if parts == [] then "" else Concat(parts[..|parts| - 1]) + parts[|parts| - 1]
  }

  /** The blocks of all passages, in retrieval order. */
  function RenderHits(docs: seq<SopHit>): string
  {
    Concat(Blocks(docs))
  }

  /** What `search_sop_manual` returns for the retrieved passages. */
  function SearchResult(docs: seq<SopHit>): string
  {
    if docs == [] then NotFoundText else RenderHits(docs)
  }

  /** The formatting loop of `search_sop_manual`: one block per passage,
      appended in retrieval order, or the not-found text when nothing came back. */
  method FormatSearchResult(docs: seq<SopHit>) returns (text: string)
    ensures text == SearchResult(docs)
  {
    if |docs| == 0 {
      return NotFoundText;
    }
    ghost var blocks := Blocks(docs);
    text := "";
    for i := 0 to |docs|
      invariant text == Concat(blocks[..i])
    {
      assert blocks[..i + 1][..i] == blocks[..i];
      text := text + SopBlock(i, docs[i]);
    }
    assert blocks[..|docs|] == blocks;
  }

  /** The concatenation of the first `j` parts is a prefix of the whole. */
  lemma {:induction false} ConcatPrefix(parts: seq<string>, j: nat)
    requires j <= |parts|
    ensures StartsWith(Concat(parts), Concat(parts[..j]))
    decreases |parts|
  {
    if j < |parts| {
      var init := parts[..|parts| - 1];
      ConcatPrefix(init, j);
      assert init[..j] == parts[..j];
      var front := Concat(init);
      assert (front + parts[|parts| - 1])[..|front|] == front;
      StartsWithTransitive(Concat(parts), front, Concat(init[..j]));
    } else {
      assert parts[..j] == parts;
    }
  }

  lemma ConcatSnoc(parts: seq<string>, i: nat)
    requires i < |parts|
    ensures Concat(parts[..i + 1]) == Concat(parts[..i]) + parts[i]
  {
    assert parts[..i + 1][..i] == parts[..i];
  }

  /** Part `i` sits right after parts 0..i-1. */
  lemma ConcatHasPart(parts: seq<string>, i: nat)
    requires i < |parts|
    ensures Contains(Concat(parts), parts[i])
  {
    ConcatPrefix(parts, i + 1);
    ConcatSnoc(parts, i);
    ContainsMiddle(Concat(parts[..i]), parts[i], "");
    assert Concat(parts[..i]) + parts[i] + "" == Concat(parts[..i + 1]);
    ContainsInPrefix(Concat(parts), Concat(parts[..i + 1]), parts[i]);
  }

  /** A concatenation starts with its first part. */
  lemma ConcatStartsWithFirst(parts: seq<string>)
    requires parts != []
    ensures StartsWith(Concat(parts), parts[0])
  {
    ConcatPrefix(parts, 1);
    ConcatSnoc(parts, 0);
    assert parts[..0] == [];
  }

  /** Block `i` of the result sits right after the blocks of passages 0..i-1. */
  lemma RenderHitsHasBlock(docs: seq<SopHit>, i: nat)
    requires i < |docs|
    ensures Contains(RenderHits(docs), SopBlock(i, docs[i]))
  {
    ConcatHasPart(Blocks(docs), i);
  }

  /** Each block opens a new line and carries the passage's number, source,
      section and stripped text. */
  lemma SopBlockCites(i: nat, hit: SopHit)
    ensures StartsWith(SopBlock(i, hit), "\n[문서 " + NatToString(i + 1) + "] 출처: " + hit.source)
    ensures Contains(SopBlock(i, hit), hit.section)
    ensures Contains(SopBlock(i, hit), Strip(hit.content))
    ensures SopBlock(i, hit)[0] == '\n'
  {
    var head := "\n[문서 " + NatToString(i + 1) + "] 출처: " + hit.source + " | 섹션: ";
    assert SopBlock(i, hit) == head + hit.section + ("\n내용: " + Strip(hit.content) + "\n");
    ContainsMiddle(head, hit.section, "\n내용: " + Strip(hit.content) + "\n");
    var front := head + hit.section + "\n내용: ";
    assert SopBlock(i, hit) == front + Strip(hit.content) + "\n";
    ContainsMiddle(front, Strip(hit.content), "\n");
  }

  /** The not-found text is returned exactly when the retriever found nothing. */
  lemma SearchResultNotFoundIff(docs: seq<SopHit>)
    ensures SearchResult(docs) == NotFoundText <==> docs == []
  {
    if docs != [] {
      ConcatStartsWithFirst(Blocks(docs));
      SopBlockCites(0, docs[0]);
      assert SearchResult(docs)[0] == '\n';
      assert NotFoundText[0] == '관';
    }
  }

  /** The module-global index and the number of times it has been built. */
  class ToolRuntime {
    var vectorStore: Option<VectorIndex>
    ghost var builds: nat

    ghost predicate Valid()
      reads this
    {
      && (vectorStore.None? <==> builds == 0)
      && builds <= 1
      && (vectorStore.Some? ==> vectorStore.value == BuildIndex(RawSopData))
    }

    /** Module import: `vector_store = None`. */
    constructor ()
      ensures Valid() && vectorStore.None? && builds == 0
    {
      vectorStore := None;
      builds := 0;
    }

    /** `initialize_vector_store`: returns at once when the index exists,
        otherwise builds it from the corpus. Building calls the embedding
        service; `buildError` is the exception it raises, if any. A raising
        build leaves the index unset, so the next call builds again; the
        index is still built successfully at most once over the object's
        life. */
    method InitializeVectorStore(buildError: Option<string>) returns (err: Option<string>)
      requires Valid()
      modifies this
      ensures Valid()
      ensures err.None? <==> vectorStore.Some?
      ensures vectorStore.Some? ==> vectorStore.value == BuildIndex(RawSopData) && builds == 1
      ensures old(vectorStore).Some? ==> vectorStore == old(vectorStore) && builds == old(builds)
      ensures vectorStore.Some? <==> old(vectorStore).Some? || buildError.None?
      ensures err.Some? ==>
        old(vectorStore).None? && err == buildError && vectorStore.None? && builds == old(builds)
    {
      if vectorStore.Some? {
        return None;
      }
      if buildError.Some? {
        return buildError;
      }
      vectorStore := Some(BuildIndex(RawSopData));
      builds := builds + 1;
      return None;
    }

    /** `search_sop_manual(query)`: makes sure the index exists, keeps the
        `k` best passages of the retriever's ranking for the query and formats
        them. The ranking itself (embedding similarity) is a parameter, and
        a `Failure` of it is the exception `retriever.invoke` raises. An
        exception of the build or of the retrieval leaves the tool as a
        `Failure`. */
    method SearchSopManual(query: string, buildError: Option<string>, ranked: Result<seq<SopHit>, string>)
      returns (r: Result<string, string>)
      requires Valid()
      modifies this
      ensures Valid()
      ensures vectorStore.Some? <==> old(vectorStore).Some? || buildError.None?
      ensures vectorStore.Some? ==> vectorStore.value == BuildIndex(RawSopData) && builds == 1
      ensures vectorStore.None? ==> builds == old(builds) && r == Failure(buildError.value)
      ensures vectorStore.Some? ==>
        (r.Success? <==> ranked.Success?)
        && (r.Success? ==> r.value == SearchResult(Retrieve(ranked.value)))
        && (r.Failure? ==> r.error == ranked.error)
    {
      var err := InitializeVectorStore(buildError);
      if err.Some? {
        return Failure(err.value);
      }
      if ranked.Failure? {
        return Failure(ranked.error);
      }
      var text := FormatSearchResult(Retrieve(ranked.value));
      return Success(text);
    }
  }

  /** The simulated probe result; `packetLoss` is absent for healthy targets. */
  datatype LatencyReport = LatencyReport(target: string, latency: string, status: string, packetLoss: Option<string>)

  /** `name` occurs in `target` at some offset. */
  ghost predicate Mentions(target: string, name: string)
  {
    exists i :: OccursAt(target, name, i)
  }

  /** `check_network_latency`: a target mentioning 신한 is critical; otherwise
      one mentioning KIS or 삼성 is down; every other target is healthy. The
      target is echoed back in every case. */
  function CheckNetworkLatency(target: string): (r: LatencyReport)
    ensures r.target == target
    ensures Mentions(target, "신한") ==>
      r.latency == "3500ms" && r.status == "Critical" && r.packetLoss == Some("15%")
    ensures !Mentions(target, "신한") && (Mentions(target, "KIS") || Mentions(target, "삼성")) ==>
      r.latency == "Timeout" && r.status == "Down" && r.packetLoss == Some("100%")
    ensures !Mentions(target, "신한") && !Mentions(target, "KIS") && !Mentions(target, "삼성") ==>
      r.latency == "25ms" && r.status == "Healthy" && r.packetLoss.None?
  {
    ContainsIffOccurs(target, "신한");
    ContainsIffOccurs(target, "KIS");
    ContainsIffOccurs(target, "삼성");
    if Contains(target, "신한") then
      LatencyReport(target, "3500ms", "Critical", Some("15%"))
    else if Contains(target, "KIS") || Contains(target, "삼성") then
      LatencyReport(target, "Timeout", "Down", Some("100%"))
    else
      LatencyReport(target, "25ms", "Healthy", None)
  }

  /** Exactly the healthy results lack a packet-loss figure, and the status
      is always one of the three simulated ones. */
  lemma LatencyStatusShape(target: string)
    ensures CheckNetworkLatency(target).packetLoss.None? <==> CheckNetworkLatency(target).status == "Healthy"
    ensures CheckNetworkLatency(target).status in {"Critical", "Down", "Healthy"}
  {
  }

  /** 신한 is tested first: a target naming it and KIS or 삼성 is still critical. */
  lemma ShinhanTakesPrecedence(target: string)
    requires Mentions(target, "신한")
    ensures CheckNetworkLatency(target).status == "Critical"
  {
  }

  /** The match is on the Korean name: "Shinhan" in Latin letters is healthy. */
  lemma LatinShinhanIsHealthy()
    ensures CheckNetworkLatency("Shinhan").status == "Healthy"
    ensures CheckNetworkLatency("Shinhan").latency == "25ms"
  {
    var t := "Shinhan";
    MissingCharNotContained(t, "신한", '신');
    MissingCharNotContained(t, "KIS", 'K');
    MissingCharNotContained(t, "삼성", '삼');
    ContainsIffOccurs(t, "신한");
    ContainsIffOccurs(t, "KIS");
    ContainsIffOccurs(t, "삼성");
  }
}
