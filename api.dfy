/**
 * The request paths and derived values of the backend client in
 * src/lib/api.ts: the query strings of the list endpoints, the `limit` and
 * `since` suffixes, the derived lead statistics and the authorization
 * header. The transport itself is the `Reply` input of `Http.FetchApi`.
 */
module Api {
  import opened Common
  import opened Text
  import opened Http
  import opened Url
  import Auth

  // ---------------------------------------------------------------------------
  // Query strings built with URLSearchParams

  /** A pair for an optional string parameter, present only when the value is truthy. */
  function Present(key: string, value: Option<string>): (r: seq<(string, string)>)
    ensures Truthy(value) ==> r == [(key, value.value)]
    ensures !Truthy(value) ==> r == []
  {
    if Truthy(value) then [(key, value.value)] else []
  }

  /** A pair for an optional number parameter, present only when the number is truthy (not 0). */
  function PresentNumber(key: string, value: Option<int>): (r: seq<(string, string)>)
    ensures value.Some? && value.value != 0 ==> r == [(key, IntToString(value.value))]
    ensures value.None? || value.value == 0 ==> r == []
  {
    if value.Some? && value.value != 0 then [(key, IntToString(value.value))] else []
  }

  datatype LeadFilters = LeadFilters(status: Option<string>, treatment: Option<string>, desireBand: Option<string>)

  /** The pairs `getLeads` appends: the truthy filters, in the order status, treatment, desireBand. */
  function LeadsPairs(f: LeadFilters): seq<(string, string)>
  {
    Present("status", f.status) + Present("treatment", f.treatment) + Present("desireBand", f.desireBand)
  }

  datatype Rating = Pending | Good | Bad | Improvable

  function RatingName(r: Rating): string
  {
    match r
    case Pending => "pending"
    case Good => "good"
    case Bad => "bad"
    case Improvable => "improvable"
  }

  datatype AiMessageOptions = AiMessageOptions(
    page: Option<int>, limit: Option<int>, rating: Option<Rating>, leadId: Option<string>)

  /** The pairs `getAiMessages` appends: page, limit, rating, leadId, each only when truthy. */
  function AiMessagesPairs(o: AiMessageOptions): seq<(string, string)>
  {
    PresentNumber("page", o.page) + PresentNumber("limit", o.limit)
    + (if o.rating.Some? then [("rating", RatingName(o.rating.value))] else [])
    + Present("leadId", o.leadId)
  }

  datatype KnowledgeBaseOptions = KnowledgeBaseOptions(
    category: Option<string>, language: Option<string>, search: Option<string>, activeOnly: Option<bool>)

  function BoolText(b: bool): string
  {
    if b then "true" else "false"
  }

  /**
   * The pairs `getKnowledgeBase` appends: category, language and search
   * when truthy, and activeOnly whenever it is given, `false` included.
   */
  function KnowledgeBasePairs(o: KnowledgeBaseOptions): seq<(string, string)>
  {
    Present("category", o.category) + Present("language", o.language) + Present("search", o.search)
    + (if o.activeOnly.Some? then [("activeOnly", BoolText(o.activeOnly.value))] else [])
  }

  /** `getLeads`: the filters appended in turn, then the path with its query, if any. */
  method LeadsPath(f: LeadFilters) returns (path: string)
    ensures path == WithQuery("/leads", Serialize(LeadsPairs(f)))
  {
    var params := new SearchParams();
    if Truthy(f.status) { params.Append("status", f.status.value); }
    assert params.pairs == Present("status", f.status);
    if Truthy(f.treatment) { params.Append("treatment", f.treatment.value); }
    assert params.pairs == Present("status", f.status) + Present("treatment", f.treatment);
    if Truthy(f.desireBand) { params.Append("desireBand", f.desireBand.value); }
    assert params.pairs == LeadsPairs(f);
    path := WithQuery("/leads", params.ToString());
  }

  /** `getAiMessages`. */
  method AiMessagesPath(o: AiMessageOptions) returns (path: string)
    ensures path == WithQuery("/ai-training/messages", Serialize(AiMessagesPairs(o)))
  {
    var params := new SearchParams();
    if o.page.Some? && o.page.value != 0 { params.Append("page", IntToString(o.page.value)); }
    assert params.pairs == PresentNumber("page", o.page);
    if o.limit.Some? && o.limit.value != 0 { params.Append("limit", IntToString(o.limit.value)); }
    assert params.pairs == PresentNumber("page", o.page) + PresentNumber("limit", o.limit);
    if o.rating.Some? { params.Append("rating", RatingName(o.rating.value)); }
    assert params.pairs == PresentNumber("page", o.page) + PresentNumber("limit", o.limit)
      + (if o.rating.Some? then [("rating", RatingName(o.rating.value))] else []);
    if Truthy(o.leadId) { params.Append("leadId", o.leadId.value); }
    assert params.pairs == AiMessagesPairs(o);
    path := WithQuery("/ai-training/messages", params.ToString());
  }

  /** `getKnowledgeBase`. */
  method KnowledgeBasePath(o: KnowledgeBaseOptions) returns (path: string)
    ensures path == WithQuery("/ai-training/knowledge-base", Serialize(KnowledgeBasePairs(o)))
  {
    var params := new SearchParams();
    if Truthy(o.category) { params.Append("category", o.category.value); }
    assert params.pairs == Present("category", o.category);
    if Truthy(o.language) { params.Append("language", o.language.value); }
    assert params.pairs == Present("category", o.category) + Present("language", o.language);
    if Truthy(o.search) { params.Append("search", o.search.value); }
    assert params.pairs == Present("category", o.category) + Present("language", o.language)
      + Present("search", o.search);
    if o.activeOnly.Some? { params.Append("activeOnly", BoolText(o.activeOnly.value)); }
    assert params.pairs == KnowledgeBasePairs(o);
    path := WithQuery("/ai-training/knowledge-base", params.ToString());
  }

  /**
   * Every builder's path is the bare endpoint when nothing was appended,
   * and otherwise the endpoint, `?`, and a query that reads back as the
   * appended pairs, form-encoded, in the order they were appended.
   */
  lemma QueryPathReadsBack(base: string, pairs: seq<(string, string)>)
    ensures pairs == [] ==> WithQuery(base, Serialize(pairs)) == base
    ensures pairs != [] ==>
      var q := Serialize(pairs);
      q != "" && WithQuery(base, q) == base + "?" + q && ParseQuery(q) == EncodedPairs(pairs)
  {
    SerializeEmpty(pairs);
    if pairs != [] {
      SerializeParses(pairs);
    }
  }

  /** `getLeads()` with no filter asks for `/leads` itself. */
  lemma LeadsWithoutFilters(f: LeadFilters)
    requires !Truthy(f.status) && !Truthy(f.treatment) && !Truthy(f.desireBand)
    ensures WithQuery("/leads", Serialize(LeadsPairs(f))) == "/leads"
  {
    QueryPathReadsBack("/leads", LeadsPairs(f));
  }

  /** The lead filter name `status` is a plain word, which the form encoder leaves as it is. */
  lemma StatusKeyPlain()
    ensures FormEncode("status") == "status"
  {
    var w := "status";
    assert forall i :: 0 <= i < |w| ==> FormKeeps(w[i]);
    FormEncodeKeepsWord(w);
  }

  /** So is `treatment`. */
  lemma TreatmentKeyPlain()
    ensures FormEncode("treatment") == "treatment"
  {
    var w := "treatment";
    assert forall i :: 0 <= i < |w| ==> FormKeeps(w[i]);
    FormEncodeKeepsWord(w);
  }

  /** So is `desireBand`. */
  lemma DesireBandKeyPlain()
    ensures FormEncode("desireBand") == "desireBand"
  {
    var w := "desireBand";
    assert forall i :: 0 <= i < |w| ==> FormKeeps(w[i]);
    FormEncodeKeepsWord(w);
  }

  /** So is the knowledge-base option `activeOnly`. */
  lemma ActiveOnlyKeyPlain()
    ensures FormEncode("activeOnly") == "activeOnly"
  {
    var w := "activeOnly";
    assert forall i :: 0 <= i < |w| ==> FormKeeps(w[i]);
    FormEncodeKeepsWord(w);
  }

  /** So is the value `false` it is sent with. */
  lemma FalseValuePlain()
    ensures FormEncode("false") == "false"
  {
    var w := "false";
    assert forall i :: 0 <= i < |w| ==> FormKeeps(w[i]);
    FormEncodeKeepsWord(w);
  }

  /** With every filter given, the query holds all three, in order, and nothing else. */
  lemma LeadsWithAllFilters(f: LeadFilters)
    requires Truthy(f.status) && Truthy(f.treatment) && Truthy(f.desireBand)
    ensures var q := Serialize(LeadsPairs(f));
      ParseQuery(q) == [("status", FormEncode(f.status.value)),
                        ("treatment", FormEncode(f.treatment.value)),
                        ("desireBand", FormEncode(f.desireBand.value))]
  {
    assert LeadsPairs(f) == [("status", f.status.value), ("treatment", f.treatment.value), ("desireBand", f.desireBand.value)];
    StatusKeyPlain();
    TreatmentKeyPlain();
    DesireBandKeyPlain();
    PlainKeysParse("status", "treatment", "desireBand", f.status.value, f.treatment.value, f.desireBand.value);
  }

  /** Three pairs whose keys the encoder leaves alone read back with those keys and their encoded values. */
  lemma PlainKeysParse(k1: string, k2: string, k3: string, v1: string, v2: string, v3: string)
    requires FormEncode(k1) == k1 && FormEncode(k2) == k2 && FormEncode(k3) == k3
    ensures ParseQuery(Serialize([(k1, v1), (k2, v2), (k3, v3)])) ==
      [(k1, FormEncode(v1)), (k2, FormEncode(v2)), (k3, FormEncode(v3))]
  {
    ThreePairsParse((k1, v1), (k2, v2), (k3, v3));
  }

  /** Three pairs read back as their encoded halves. */
  lemma ThreePairsParse(a: (string, string), b: (string, string), c: (string, string))
    ensures ParseQuery(Serialize([a, b, c])) ==
      [(FormEncode(a.0), FormEncode(a.1)), (FormEncode(b.0), FormEncode(b.1)), (FormEncode(c.0), FormEncode(c.1))]
  {
    SerializeParses([a, b, c]);
  }

  /** `activeOnly: false` is sent, unlike the other options, whose falsy values are dropped. */
  lemma KnowledgeBaseSendsFalse(o: KnowledgeBaseOptions)
    requires o.activeOnly == Some(false)
    requires !Truthy(o.category) && !Truthy(o.language) && !Truthy(o.search)
    ensures ParseQuery(Serialize(KnowledgeBasePairs(o))) == [("activeOnly", "false")]
  {
    var pairs := KnowledgeBasePairs(o);
    assert pairs == [("activeOnly", "false")];
    assert ParseQuery(Serialize(pairs)) == EncodedPairs(pairs) by {
      QueryPathReadsBack("/ai-training/knowledge-base", pairs);
    }
    ActiveOnlyKeyPlain();
    FalseValuePlain();
  }

  // ---------------------------------------------------------------------------
  // Suffixes built by hand

  /** `limit ? `?limit=${limit}` : ""`. */
  function LimitQuery(limit: Option<int>): (r: string)
    ensures limit.None? || limit.value == 0 ==> r == ""
  {
    if limit.Some? && limit.value != 0 then "?limit=" + IntToString(limit.value) else ""
  }

  /** A positive limit can be read back from its suffix. */
  lemma LimitReadsBack(limit: nat)
    requires limit != 0
    ensures var q := LimitQuery(Some(limit));
      |q| > 7 && q[..7] == "?limit=" && AllDigits(q[7..]) && DigitsValue(q[7..]) == limit
  {
    var q := LimitQuery(Some(limit));
    assert q[7..] == NatToString(limit);
    NatToStringRoundTrip(limit);
  }

  /** `getConversations`. */
  function ConversationsPath(limit: Option<int>): (r: string)
    ensures limit.None? || limit.value == 0 ==> r == "/conversations"
    ensures limit.Some? && limit.value != 0 ==> r == "/conversations" + "?limit=" + IntToString(limit.value)
  {
    "/conversations" + LimitQuery(limit)
  }

  /** `getConversationMessages`. */
  function ConversationMessagesPath(conversationId: string, limit: Option<int>): (r: string)
    ensures limit.None? || limit.value == 0 ==> r == "/conversations/" + conversationId + "/messages"
    ensures limit.Some? && limit.value != 0 ==> r == "/conversations/" + conversationId + "/messages" + "?limit=" + IntToString(limit.value)
  {
    "/conversations/" + conversationId + "/messages" + LimitQuery(limit)
  }

  /** `getPhotos`. */
  function PhotosPath(limit: Option<int>): (r: string)
    ensures limit.None? || limit.value == 0 ==> r == "/photos"
    ensures limit.Some? && limit.value != 0 ==> r == "/photos" + "?limit=" + IntToString(limit.value)
  {
    "/photos" + LimitQuery(limit)
  }

  /** With a positive limit each of the three paths ends in the limit suffix, whose digits read back as the limit. */
  lemma LimitedPathsCarryLimit(conversationId: string, limit: nat)
    requires limit != 0
    ensures var q := LimitQuery(Some(limit));
      ConversationsPath(Some(limit)) == "/conversations" + q
      && ConversationMessagesPath(conversationId, Some(limit)) == "/conversations/" + conversationId + "/messages" + q
      && PhotosPath(Some(limit)) == "/photos" + q
      && q[..7] == "?limit=" && DigitsValue(q[7..]) == limit
  {
    LimitReadsBack(limit);
  }

  /** `getNotifications(since)`: the bound escaped with `encodeURIComponent`, when given. */
  function NotificationsPath(since: Option<string>): (r: string)
    ensures !Truthy(since) ==> r == "/notifications"
    ensures Truthy(since) ==> r == "/notifications?since=" + EncodeUriComponent(since.value)
  {
    "/notifications" + (if Truthy(since) then "?since=" + EncodeUriComponent(since.value) else "")
  }

  /** The `since` bound is always a single pair: the escaped value cannot open a second one. */
  lemma NotificationsQueryIsOnePair(since: string)
    ensures ParseQuery("since=" + EncodeUriComponent(since)) == [("since", EncodeUriComponent(since))]
  {
    var e := EncodeUriComponent(since);
    var q := "since=" + e;
    EncodeUriComponentHasNoDelimiter(since);
    assert Free(q, '&') by {
      forall i | 0 <= i < |q| ensures q[i] != '&' {
        if i >= 6 {
          assert q[i] == e[i - 6];
        }
      }
    }
    SplitFreePrefix(q, "", '&');
    assert q + "" == q;
    assert Split(q, '&') == [q];
    assert q == "since" + "=" + e;
    KeyValueOfPair("since", e);
  }

  // ---------------------------------------------------------------------------
  // Lead statistics

  /** The body of `/leads/statistics`; either breakdown may be missing. */
  datatype RawLeadStats = RawLeadStats(
    total: int,
    byStatus: Option<map<string, int>>,
    byDesireBand: Option<map<string, int>>)

  datatype LeadStats = LeadStats(
    total: int,
    byStatus: Option<map<string, int>>,
    byDesireBand: Option<map<string, int>>,
    readyForDoctor: int,
    hotLeads: int)

  /** `m?.[key] || 0` (a count of 0 is falsy and gives 0 again). */
  function CountOrZero(m: Option<map<string, int>>, key: string): (r: int)
    ensures m.Some? && key in m.value ==> r == m.value[key]
    ensures m.None? || key !in m.value ==> r == 0
  {
    if m.Some? && key in m.value && m.value[key] != 0 then m.value[key] else 0
  }

  /** What `getLeadStats` adds to the server's body. */
  function DeriveLeadStats(raw: RawLeadStats): (r: LeadStats)
    ensures r.total == raw.total && r.byStatus == raw.byStatus && r.byDesireBand == raw.byDesireBand
    ensures r.readyForDoctor == CountOrZero(raw.byStatus, "READY_FOR_DOCTOR")
    ensures r.hotLeads == CountOrZero(raw.byDesireBand, "high")
  {
    LeadStats(raw.total, raw.byStatus, raw.byDesireBand,
              CountOrZero(raw.byStatus, "READY_FOR_DOCTOR"),
              CountOrZero(raw.byDesireBand, "high"))
  }

  function RawOf(s: LeadStats): RawLeadStats
  {
    RawLeadStats(s.total, s.byStatus, s.byDesireBand)
  }

  /** The derived fields only add to the body: forgetting them gives the body back. */
  lemma DeriveLeadStatsKeepsBody(raw: RawLeadStats)
    ensures RawOf(DeriveLeadStats(raw)) == raw
  {
  }

  /** `getLeadStats`: a failed fetch is the fetch's error, a successful one the derived statistics. */
  function GetLeadStats(reply: Reply<RawLeadStats>): (r: Result<LeadStats, string>)
    ensures r.Success? <==> reply.Ok?
    ensures r.Success? ==> r.value == DeriveLeadStats(reply.data)
    ensures r.Failure? ==> r.error == FetchApi(reply).error
  {
    match FetchApi(reply)
    case Success(raw) => Success(DeriveLeadStats(raw))
    case Failure(e) => Failure(e)
  }

  // ---------------------------------------------------------------------------
  // Authorization header

  const BearerPrefix: string := "Bearer "

  /**
   * `getAuthHeader` over the value under the `auth_token` key: no header
   * outside a browser or without a token, otherwise exactly one.
   */
  function GetAuthHeader(hasWindow: bool, token: Option<string>): (r: map<string, string>)
    ensures !hasWindow || !Truthy(token) ==> r == map[]
    ensures hasWindow && Truthy(token) ==> r == map["Authorization" := BearerPrefix + token.value]
  {
    if !hasWindow || !Truthy(token) then map[] else map["Authorization" := BearerPrefix + token.value]
  }

  /**
   * The header is sent exactly when the session store holds a token (both
   * read the same key), and the token can be read back from it.
   */
  lemma AuthHeaderCarriesToken(hasWindow: bool, token: Option<string>)
    ensures GetAuthHeader(hasWindow, token) != map[] <==> Truthy(Auth.ReadToken(hasWindow, token))
    ensures Truthy(Auth.ReadToken(hasWindow, token)) ==>
      var h := GetAuthHeader(hasWindow, token)["Authorization"];
      h[..|BearerPrefix|] == BearerPrefix && h[|BearerPrefix|..] == token.value
  {
    if hasWindow && Truthy(token) {
      assert "Authorization" in GetAuthHeader(hasWindow, token);
    }
  }
}
