/** The Upload stage (components/StepUpload.tsx): the two images, the
    manual title and content, and the link extraction of `handleFetchUrl`,
    which cleans a pasted text down to a URL, asks the same-origin proxy
    for the page's `#detail-title` and `#detail-desc`, and falls back to
    one of two AI extractors. The proxy and the AI service are not part of
    the model: the calls issued are returned, and their settled answers are
    parameters. */
module Upload {
  import opened Common
  import opened Text
  import Session

  // ---------------------------------------------------------------------
  // URL cleaning: the first match of /(https?:\/\/[^\s\u4e00-\u9fa5,，;；"']+)/

  /** The characters `[^\s\u4e00-\u9fa5,，;；"']` accepts. */
  predicate UrlChar(c: char)
  {
    var n := c as int;
    && !IsSpace(c)
    && !(0x4E00 <= n <= 0x9FA5)
    && c != ',' && n != 0xFF0C && c != ';' && n != 0xFF1B && c != '"' && c != '\''
  }

  /** The length of the scheme `https://` or `http://` that starts at `i`, or 0. */
  function SchemeLength(s: string, i: nat): (n: nat)
    requires i <= |s|
    ensures n in {0, 7, 8} && i + n <= |s|
    ensures n == 8 <==> StartsWith(s[i..], "https://")
    ensures n == 7 <==> !StartsWith(s[i..], "https://") && StartsWith(s[i..], "http://")
  {
    if StartsWith(s[i..], "https://") then 8
    else if StartsWith(s[i..], "http://") then 7
    else 0
  }

  /** Whether the pattern matches at position `i`: a scheme followed by at
      least one accepted character. (`https?` falls back to `http` only when
      `https://` is absent, and `http` followed by `s://` is never `http://`.) */
  predicate MatchesAt(s: string, i: nat)
  {
    i <= |s| && SchemeLength(s, i) > 0 && i + SchemeLength(s, i) < |s| && UrlChar(s[i + SchemeLength(s, i)])
  }

  /** The end of the greedy run of accepted characters that starts at `j`. */
  function RunEnd(s: string, j: nat): (e: nat)
    requires j <= |s|
    ensures j <= e <= |s|
    ensures forall k :: j <= k < e ==> UrlChar(s[k])
    ensures e == |s| || !UrlChar(s[e])
    decreases |s| - j
  {
    if j < |s| && UrlChar(s[j]) then RunEnd(s, j + 1) else j
  }

  /** The first position at or after `i` where the pattern matches. */
  function FirstMatch(s: string, i: nat): (r: Option<nat>)
    requires i <= |s|
    ensures r.Some? ==> i <= r.value < |s| && MatchesAt(s, r.value)
    ensures r.Some? ==> forall j :: i <= j < r.value ==> !MatchesAt(s, j)
    ensures r.None? ==> forall j :: i <= j <= |s| ==> !MatchesAt(s, j)
    decreases |s| - i
  {
    if i == |s| then None
    else if MatchesAt(s, i) then Some(i)
    else FirstMatch(s, i + 1)
  }

  /** `linkUrl.match(urlRegex)` as the span `[start, end)` of `match[0]`:
      the leftmost position where the pattern matches, extended greedily as
      far as accepted characters go. */
  function UrlMatch(s: string): (r: Option<(nat, nat)>)
    ensures r.None? <==> forall i :: 0 <= i <= |s| ==> !MatchesAt(s, i)
    ensures r.Some? ==> var (i, e) := r.value;
      && i < e <= |s| && MatchesAt(s, i)
      && (forall j :: 0 <= j < i ==> !MatchesAt(s, j))
      && (forall k :: i + SchemeLength(s, i) <= k < e ==> UrlChar(s[k]))
      && i + SchemeLength(s, i) < e
      && (e == |s| || !UrlChar(s[e]))
  {
    match FirstMatch(s, 0)
    case None => None
    case Some(i) => Some((i, RunEnd(s, i + SchemeLength(s, i))))
  }

  /** `match ? match[0] : linkUrl.trim()`. */
  function CleanUrl(s: string): string
  {
    match UrlMatch(s)
    case Some((i, e)) => s[i..e]
    case None => Trim(s)
  }

  /** A matched URL is a scheme followed by one or more accepted
      characters, so it has no white space, no CJK ideograph and none of
      the separators in it. */
  lemma MatchedUrlShape(s: string)
    requires UrlMatch(s).Some?
    ensures var u := CleanUrl(s);
      (StartsWith(u, "https://") && |u| > 8 && forall k :: 8 <= k < |u| ==> UrlChar(u[k]))
      || (StartsWith(u, "http://") && |u| > 7 && forall k :: 7 <= k < |u| ==> UrlChar(u[k]))
  {
    var (i, e) := UrlMatch(s).value;
    var n := SchemeLength(s, i);
    var u := s[i..e];
    assert u[..n] == s[i..][..n];
    forall k | n <= k < |u| ensures UrlChar(u[k]) {
      assert u[k] == s[i + k];
    }
    if n == 8 {
      assert StartsWith(u, "https://");
    } else {
      assert StartsWith(u, "http://");
    }
  }

  /** The flow stops before any call exactly when nothing matched and the
      trimmed input does not start with "http": a matched URL always passes. */
  lemma FailsFastExactly(s: string)
    ensures !StartsWith(CleanUrl(s), "http") <==> UrlMatch(s).None? && !StartsWith(Trim(s), "http")
  {
    if UrlMatch(s).Some? {
      MatchedUrlShape(s);
      var u := CleanUrl(s);
      assert u[..4] == "http" by {
        if StartsWith(u, "https://") {
          assert u[..4] == u[..8][..4];
        } else {
          assert u[..4] == u[..7][..4];
        }
      }
    }
  }

  /** A pasted share text: the URL is cut at the full-width comma. */
  lemma CleanUrlExample()
    ensures CleanUrl("看 http://a，b") == "http://a"
  {
    ExampleMatch();
  }

  /** The match in the example above spans `http://a`; the full-width comma ends it. */
  lemma ExampleMatch()
    ensures UrlMatch("看 http://a，b") == Some((2, 10))
  {
    var s := "看 http://a，b";
    ExampleMatchStart();
    assert SchemeLength(s, 2) == 7;
    assert !UrlChar(s[10]);
    assert RunEnd(s, 9) == 10;
  }

  /** The pattern first matches the example at position 2. */
  lemma ExampleMatchStart()
    ensures FirstMatch("看 http://a，b", 0) == Some(2)
  {
    var s := "看 http://a，b";
    assert s[0..][0] == '看' && s[1..][0] == ' ';
    assert !MatchesAt(s, 0) && !MatchesAt(s, 1);
    assert s[2..][..7] == "http://";
    assert s[9] == 'a';
    assert MatchesAt(s, 2);
  }

  // ---------------------------------------------------------------------
  // The merge chain of `handleFetchUrl`

  const TitleSentinel: string := "AI 智能提取结果"
  const ContentSentinel: string := "未能提取有效内容，请手动补充。"
  const FailedMessage: string := "提取失败，请手动输入。"
  const EmptyMessage: string := "未能提取有效内容，请手动输入。"

  /** The AI extractor a fetch ends with, if any. */
  datatype AiCall =
    | NoAiCall
    | FromContent(content: string)  // extractInfoFromUrlContent(extractedContent)
    | ViaSearch(url: string)        // extractInfoFromUrlViaSearch(cleanUrl)

  /** The outside calls one `handleFetchUrl` makes: the URL posted to the proxy, then the AI call. */
  datatype FetchCalls = FetchCalls(proxyUrl: Option<string>, ai: AiCall)

  function ProxyTitle(p: ProxyReply): Option<string>
  {
    if p.ProxyOk? then p.detailTitle else None
  }

  function ProxyDesc(p: ProxyReply): Option<string>
  {
    if p.ProxyOk? then p.detailDesc else None
  }

  /** The proxy found both elements: the fetch ends there. */
  predicate ProxyComplete(p: ProxyReply)
  {
    Truthy(ProxyTitle(p)) && Truthy(ProxyDesc(p))
  }

  /** A proxy field, when non-empty, replaces the current value. */
  function ProxyField(current: string, field: Option<string>): (r: string)
    ensures Truthy(field) ==> r == field.value
    ensures !Truthy(field) ==> r == current
  {
    if Truthy(field) then field.value else current
  }

  /** An AI field replaces the current value only when it is non-empty
      and differs from the extractor's "nothing found" sentinel. */
  function AiField(current: string, candidate: string, sentinel: string): (r: string)
    ensures candidate != "" && candidate != sentinel ==> r == candidate
    ensures candidate == "" || candidate == sentinel ==> r == current
  {
    if candidate != "" && candidate != sentinel then candidate else current
  }

  /** Which extractor runs when the proxy did not deliver both elements:
      the content extractor on non-empty page content from an ok reply,
      the search extractor on the cleaned URL in every other case (an
      error, a non-2xx reply, or a reply without content). */
  function Extractor(p: ProxyReply, cleanUrl: string): (c: AiCall)
    ensures c.FromContent? <==> p.ProxyOk? && Truthy(p.content)
    ensures c.FromContent? ==> c.content == p.content.value
    ensures !c.FromContent? ==> c == ViaSearch(cleanUrl)
  {
    if p.ProxyOk? && Truthy(p.content) then FromContent(p.content.value) else ViaSearch(cleanUrl)
  }

  /** Neither merge step can empty a field that had a value. */
  lemma MergeKeepsValues(current: string, field: Option<string>, candidate: string, sentinel: string)
    ensures current != "" ==> ProxyField(current, field) != ""
    ensures current != "" ==> AiField(ProxyField(current, field), candidate, sentinel) != ""
  {
  }

  // ---------------------------------------------------------------------
  // The stage

  datatype ImageKind = Couplet | Door

  datatype UploadView = UploadView(
    coupletImage: Option<string>, doorImage: Option<string>, activeTab: Tab, linkUrl: string,
    isFetchingLink: bool, title: string, content: string, extractionError: Option<string>)

  const DefaultTitle: string := "2024龙年植绒立体春联"
  const DefaultContent: string := "核心卖点：加厚植绒纸，不掉粉，立体烫金工艺，显得很大气。"

  const NoCalls: FetchCalls := FetchCalls(None, NoAiCall)

  /** What follows the URL check in `handleFetchUrl`, once the proxy has
      been asked for `url`: both proxy elements settle the fetch; otherwise
      the present proxy fields are applied, an extractor is asked, and its
      answer is merged field by field. It ends on the manual tab. */
  function Extraction(v: UploadView, url: string, proxy: ProxyReply, ai: Outcome<SocialCopy>): (UploadView, FetchCalls)
  {
    var done := v.(activeTab := Manual, isFetchingLink := false);
    var title := ProxyField(v.title, ProxyTitle(proxy));
    var content := ProxyField(v.content, ProxyDesc(proxy));
    if ProxyComplete(proxy) then
      (done.(title := title, content := content, extractionError := None), FetchCalls(Some(url), NoAiCall))
    else
      var calls := FetchCalls(Some(url), Extractor(proxy, url));
      match ai
      case Err(_) => (done.(title := title, content := content, extractionError := Some(FailedMessage)), calls)
      case Ok(r) =>
        (done.(title := AiField(title, r.title, TitleSentinel),
               content := AiField(content, r.content, ContentSentinel),
               extractionError := if r.title == "" && r.content == "" then Some(EmptyMessage) else None),
         calls)
  }

  /** The extraction overwrites the spinner and the error whatever they were. */
  lemma ExtractionIgnoresFlags(v: UploadView, url: string, proxy: ProxyReply, ai: Outcome<SocialCopy>)
    ensures Extraction(v.(isFetchingLink := true, extractionError := None), url, proxy, ai) == Extraction(v, url, proxy, ai)
  {
  }

  /** The stage and the calls issued after one `handleFetchUrl` from `v`:
      an empty link does nothing; a link that does not clean to an http
      URL fails at once, on the manual tab; otherwise the cleaned URL goes
      to the proxy and the extraction runs. */
  function FetchResult(v: UploadView, proxy: ProxyReply, ai: Outcome<SocialCopy>): (UploadView, FetchCalls)
  {
    if v.linkUrl == "" then (v, NoCalls)
    else
      var url := CleanUrl(v.linkUrl);
      if !StartsWith(url, "http") then
        (v.(activeTab := Manual, isFetchingLink := false, extractionError := Some(FailedMessage)), NoCalls)
      else Extraction(v, url, proxy, ai)
  }

  /** A fetch never touches the images or the link, and any attempt with a
      link ends on the manual tab with the spinner off. */
  lemma FetchFrame(v: UploadView, proxy: ProxyReply, ai: Outcome<SocialCopy>)
    ensures var (w, _) := FetchResult(v, proxy, ai);
      && w.coupletImage == v.coupletImage && w.doorImage == v.doorImage && w.linkUrl == v.linkUrl
      && (v.linkUrl == "" ==> w == v)
      && (v.linkUrl != "" ==> w.activeTab == Manual && !w.isFetchingLink)
  {
    if v.linkUrl != "" {
      var url := CleanUrl(v.linkUrl);
      if StartsWith(url, "http") {
        var w := Extraction(v, url, proxy, ai).0;
        assert w.coupletImage == v.coupletImage && w.doorImage == v.doorImage && w.linkUrl == v.linkUrl;
      }
    }
  }

  /** A fetch never empties a title or a content that had a value, so a
      stage that could go on before a fetch still can after it. */
  lemma FetchKeepsValues(v: UploadView, proxy: ProxyReply, ai: Outcome<SocialCopy>)
    ensures v.title != "" ==> FetchResult(v, proxy, ai).0.title != ""
    ensures v.content != "" ==> FetchResult(v, proxy, ai).0.content != ""
  {
    if v.linkUrl != "" && StartsWith(CleanUrl(v.linkUrl), "http") && !ProxyComplete(proxy) && ai.Ok? {
      MergeKeepsValues(v.title, ProxyTitle(proxy), ai.value.title, TitleSentinel);
      MergeKeepsValues(v.content, ProxyDesc(proxy), ai.value.content, ContentSentinel);
    }
  }

  /** The proxy is asked exactly when the link is non-empty and either a
      URL occurs in it or its trimmed text starts with "http"; then it is
      asked for exactly the cleaned URL. */
  lemma FetchAsksProxy(v: UploadView, proxy: ProxyReply, ai: Outcome<SocialCopy>)
    ensures var (_, calls) := FetchResult(v, proxy, ai);
      && (calls.proxyUrl.Some? <==>
            v.linkUrl != "" && (UrlMatch(v.linkUrl).Some? || StartsWith(Trim(v.linkUrl), "http")))
      && (calls.proxyUrl.Some? ==> calls.proxyUrl.value == CleanUrl(v.linkUrl))
  {
    FailsFastExactly(v.linkUrl);
  }

  /** An AI extractor is asked exactly when the proxy was asked and did not
      deliver both elements; the content extractor exactly when it also
      delivered page content. */
  lemma FetchAsksAi(v: UploadView, proxy: ProxyReply, ai: Outcome<SocialCopy>)
    ensures var (_, calls) := FetchResult(v, proxy, ai);
      && (calls.ai != NoAiCall <==> calls.proxyUrl.Some? && !ProxyComplete(proxy))
      && (calls.ai.FromContent? <==> calls.proxyUrl.Some? && !ProxyComplete(proxy) && proxy.ProxyOk? && Truthy(proxy.content))
      && (calls.ai.ViaSearch? ==> calls.ai.url == calls.proxyUrl.value)
  {
  }

  /** The error shown after a fetch with a link: the failure text when the
      link is not a URL or the extractor failed, the empty-result text when
      the extractor found neither field, and none otherwise. */
  lemma FetchErrors(v: UploadView, proxy: ProxyReply, ai: Outcome<SocialCopy>)
    requires v.linkUrl != ""
    ensures var (w, calls) := FetchResult(v, proxy, ai);
      && (w.extractionError == Some(FailedMessage) <==> calls.proxyUrl.None? || (calls.ai != NoAiCall && ai.Err?))
      && (w.extractionError == Some(EmptyMessage) <==>
            calls.ai != NoAiCall && ai.Ok? && ai.value.title == "" && ai.value.content == "")
      && (w.extractionError == None <==>
            calls.proxyUrl.Some? && (calls.ai == NoAiCall || (ai.Ok? && (ai.value.title != "" || ai.value.content != ""))))
  {
  }

  /** Both elements from the proxy fill the fields as found, whatever the AI would say. */
  lemma FetchProxyWins(v: UploadView, proxy: ProxyReply, ai: Outcome<SocialCopy>)
    requires v.linkUrl != "" && StartsWith(CleanUrl(v.linkUrl), "http") && ProxyComplete(proxy)
    ensures var (w, _) := FetchResult(v, proxy, ai);
      w.title == proxy.detailTitle.value && w.content == proxy.detailDesc.value
  {
  }

  class UploadStage {
    var coupletImage: Option<string>
    var doorImage: Option<string>
    var activeTab: Tab
    var linkUrl: string
    var isFetchingLink: bool
    var title: string
    var content: string
    var extractionError: Option<string>

    ghost function View(): UploadView
      reads this
    {
      UploadView(coupletImage, doorImage, activeTab, linkUrl, isFetchingLink, title, content, extractionError)
    }

    constructor ()
      ensures View() == UploadView(None, None, Manual, "", false, DefaultTitle, DefaultContent, None)
    {
      coupletImage, doorImage := None, None;
      activeTab, linkUrl, isFetchingLink := Manual, "", false;
      title, content, extractionError := DefaultTitle, DefaultContent, None;
    }

    /** `handleFileChange`: a file read as a data URL fills its slot; a failed read changes nothing. */
    method SetImage(kind: ImageKind, read: Outcome<string>)
      modifies this
      ensures read.Err? ==> View() == old(View())
      ensures read.Ok? && kind == Couplet ==> View() == old(View()).(coupletImage := Some(read.value))
      ensures read.Ok? && kind == Door ==> View() == old(View()).(doorImage := Some(read.value))
    {
      if read.Ok? {
        if kind == Couplet {
          coupletImage := Some(read.value);
        } else {
          doorImage := Some(read.value);
        }
      }
    }

    /** The "更换图片" button: empties its slot. */
    method ClearImage(kind: ImageKind)
      modifies this
      ensures kind == Couplet ==> View() == old(View()).(coupletImage := None)
      ensures kind == Door ==> View() == old(View()).(doorImage := None)
    {
      if kind == Couplet {
        coupletImage := None;
      } else {
        doorImage := None;
      }
    }

    /** The tab buttons. */
    method SelectTab(tab: Tab)
      modifies this
      ensures View() == old(View()).(activeTab := tab)
    {
      activeTab := tab;
    }

    /** The link textarea (and its "清空" button, with ""). */
    method TypeLink(text: string)
      modifies this
      ensures View() == old(View()).(linkUrl := text)
    {
      linkUrl := text;
    }

    method TypeTitle(text: string)
      modifies this
      ensures View() == old(View()).(title := text)
    {
      title := text;
    }

    method TypeContent(text: string)
      modifies this
      ensures View() == old(View()).(content := text)
    {
      content := text;
    }

    /** `handleFetchUrl`, given how the proxy request and the AI request it
        may issue settle. */
    method FetchUrl(proxy: ProxyReply, ai: Outcome<SocialCopy>) returns (calls: FetchCalls)
      modifies this
      ensures (View(), calls) == FetchResult(old(View()), proxy, ai)
    {
      if linkUrl == "" {
        return FetchCalls(None, NoAiCall);
      }
      ghost var v0 := View();
      isFetchingLink := true;
      extractionError := None;

      var cleanUrl := CleanUrl(linkUrl);
      assert cleanUrl == CleanUrl(v0.linkUrl);
      if !StartsWith(cleanUrl, "http") {
        // "链接格式无效" is thrown and caught
        extractionError := Some(FailedMessage);
        activeTab := Manual;
        isFetchingLink := false;
        assert View() == v0.(activeTab := Manual, isFetchingLink := false, extractionError := Some(FailedMessage));
        return NoCalls;
      }
      assert FetchResult(v0, proxy, ai) == Extraction(v0, cleanUrl, proxy, ai);
      ExtractionIgnoresFlags(v0, cleanUrl, proxy, ai);
      calls := Extract(cleanUrl, proxy, ai);
    }

    /** The part of `handleFetchUrl` after the URL check: the proxy reply
        for `cleanUrl`, then possibly one AI extractor. */
    method Extract(cleanUrl: string, proxy: ProxyReply, ai: Outcome<SocialCopy>) returns (calls: FetchCalls)
      requires extractionError == None
      modifies this
      ensures (View(), calls) == Extraction(old(View()), cleanUrl, proxy, ai)
    {
      var extractedContent: Option<string> := None;
      if proxy.ProxyOk? {
        if Truthy(proxy.detailTitle) {
          title := proxy.detailTitle.value;
        }
        if Truthy(proxy.detailDesc) {
          content := proxy.detailDesc.value;
        }
        if Truthy(proxy.detailTitle) && Truthy(proxy.detailDesc) {
          activeTab := Manual;
          isFetchingLink := false;
          return FetchCalls(Some(cleanUrl), NoAiCall);
        }
        if Truthy(proxy.content) {
          extractedContent := proxy.content;
        }
      }

      var call := if extractedContent.Some? then FromContent(extractedContent.value) else ViaSearch(cleanUrl);
      calls := FetchCalls(Some(cleanUrl), call);
      if ai.Ok? {
        var result := ai.value;
        if result.title != "" && result.title != TitleSentinel {
          title := result.title;
        }
        if result.content != "" && result.content != ContentSentinel {
          content := result.content;
        }
        activeTab := Manual;
        if result.title == "" && result.content == "" {
          extractionError := Some(EmptyMessage);
        }
      } else {
        extractionError := Some(FailedMessage);
        activeTab := Manual;
      }
      isFetchingLink := false;
    }

    /** `handleNext`: what is passed to `onNext`, if anything: the images
        and the copy, only with a couplet image and a non-empty title and
        content. */
    method Next() returns (payload: Option<(string, Option<string>, SocialCopy)>)
      ensures payload.Some? <==> Truthy(coupletImage) && title != "" && content != ""
      ensures payload.Some? ==> payload.value == (coupletImage.value, doorImage, SocialCopy(title, content))
      ensures payload.Some? ==> Session.UploadPayloadOk(payload.value.0, payload.value.2)
    {
      if Truthy(coupletImage) && title != "" && content != "" {
        payload := Some((coupletImage.value, doorImage, SocialCopy(title, content)));
      } else {
        payload := None;
      }
    }
  }
}
