/** The copy-writing stage of components/StepCopywrite.tsx: two templates
    filled by hand or from the proxy's `#detail-title` / `#detail-desc`,
    and a generated copy that can be edited. Alerts are recorded in order
    in `alerts`; the proxy and the AI service are parameters. */
module Copywrite {
  import opened Common
  import opened Text

  const DefaultTitleTemplate: string := "新年快乐，龙年大吉"
  const DefaultContentTemplate: string := "这款春联质量很好，寓意也好，适合贴在家里。"
  const NotFoundAlert: string := "未能识别到指定内容，请确认链接页面包含 #detail-title 或 #detail-desc 元素。"
  const FetchFailedAlert: string := "内容提取失败，请检查链接或确保后端服务已启动。"
  const GenerateFailedAlert: string := "生成文案失败，请重试。"

  /** A template after extraction: a non-empty element text replaces it, trimmed. */
  function Adopted(template: string, field: Option<string>): (r: string)
    ensures Truthy(field) ==> r == Trim(field.value) && Unpadded(r)
    ensures !Truthy(field) ==> r == template
  {
    if Truthy(field) then Trim(field.value) else template
  }

  /** The component on its own: an element whose text is only white space
      still counts as found, and empties its template. The repository's
      server.js never sends such a reply (server.js:48-49, 57-58 trim each
      element and send `null` for an empty one), so this is reachable only
      with another proxy behind `/extract-body`. */
  lemma BlankElementEmptiesTemplate(template: string, text: string)
    requires text != "" && AllSpace(text)
    ensures Adopted(template, Some(text)) == ""
  {
    TrimBlank(text);
  }

  /** Extracting the same reply a second time changes no template further. */
  lemma AdoptedIdempotent(template: string, field: Option<string>)
    ensures Adopted(Adopted(template, field), field) == Adopted(template, field)
  {
  }

  /** A template that came from the page keeps its value when the field is
      re-typed with its own trim. */
  lemma AdoptedIsTrimFixpoint(template: string, field: Option<string>)
    requires Truthy(field)
    ensures Trim(Adopted(template, field)) == Adopted(template, field)
  {
    TrimIdempotent(field.value);
  }

  datatype CopywriteView = CopywriteView(
    activeTab: Tab, linkUrl: string, isFetchingLink: bool,
    titleTemplate: string, contentTemplate: string,
    generatedCopy: Option<SocialCopy>, isGenerating: bool, alerts: seq<string>)

  class CopywriteStage {
    var activeTab: Tab
    var linkUrl: string
    var isFetchingLink: bool
    var titleTemplate: string
    var contentTemplate: string
    var generatedCopy: Option<SocialCopy>
    var isGenerating: bool
    /** Every `alert` raised so far, oldest first. */
    var alerts: seq<string>

    ghost function View(): CopywriteView
      reads this
    {
      CopywriteView(activeTab, linkUrl, isFetchingLink, titleTemplate, contentTemplate,
                    generatedCopy, isGenerating, alerts)
    }

    constructor ()
      ensures View() == CopywriteView(Manual, "", false, DefaultTitleTemplate, DefaultContentTemplate, None, false, [])
    {
      activeTab, linkUrl, isFetchingLink := Manual, "", false;
      titleTemplate, contentTemplate := DefaultTitleTemplate, DefaultContentTemplate;
      generatedCopy, isGenerating, alerts := None, false, [];
    }

    method SelectTab(tab: Tab)
      modifies this
      ensures View() == old(View()).(activeTab := tab)
    {
      activeTab := tab;
    }

    method TypeLink(text: string)
      modifies this
      ensures View() == old(View()).(linkUrl := text)
    {
      linkUrl := text;
    }

    method TypeTitleTemplate(text: string)
      modifies this
      ensures View() == old(View()).(titleTemplate := text)
    {
      titleTemplate := text;
    }

    method TypeContentTemplate(text: string)
      modifies this
      ensures View() == old(View()).(contentTemplate := text)
    {
      contentTemplate := text;
    }

    /** `handleFetchUrl` given how `fetch('/extract-body')` settles; returns
        the URL posted, which is the link exactly as typed. The button is
        disabled while a fetch runs. */
    method FetchUrl(reply: ProxyReply) returns (posted: Option<string>)
      requires !isFetchingLink
      modifies this
      ensures old(linkUrl) == "" ==> posted == None && View() == old(View())
      ensures old(linkUrl) != "" ==> posted == Some(old(linkUrl))
      // a failed request or a non-2xx reply: only an alert
      ensures old(linkUrl) != "" && !reply.ProxyOk? ==>
                View() == old(View()).(alerts := old(alerts) + [FetchFailedAlert])
      // a reply: each element found replaces its template; with neither, an alert and the tab stays
      ensures old(linkUrl) != "" && reply.ProxyOk? ==>
                var found := Truthy(reply.detailTitle) || Truthy(reply.detailDesc);
                View() == old(View()).(
                  titleTemplate := Adopted(old(titleTemplate), reply.detailTitle),
                  contentTemplate := Adopted(old(contentTemplate), reply.detailDesc),
                  activeTab := if found then Manual else old(activeTab),
                  alerts := old(alerts) + if found then [] else [NotFoundAlert])
    {
      if linkUrl == "" {
        return None;
      }
      isFetchingLink := true;
      posted := Some(linkUrl);
      if reply.ProxyOk? {
        var extractedTitle, extractedDesc := reply.detailTitle, reply.detailDesc;
        if Truthy(extractedTitle) {
          titleTemplate := Trim(extractedTitle.value);
        }
        if Truthy(extractedDesc) {
          contentTemplate := Trim(extractedDesc.value);
        }
        if !Truthy(extractedTitle) && !Truthy(extractedDesc) {
          alerts := alerts + [NotFoundAlert];
        } else {
          activeTab := Manual;
        }
      } else {
        alerts := alerts + [FetchFailedAlert];
      }
      isFetchingLink := false;
    }

    /** `handleGenerate` given how `generateSocialCopy` settles; returns the
        request made from the current templates. Both generate buttons are
        disabled while a run is in progress. */
    method Generate(result: Outcome<SocialCopy>) returns (request: CopyRequest)
      requires !isGenerating
      modifies this
      ensures request == CopyRequest(old(titleTemplate), old(contentTemplate))
      ensures result.Ok? ==> View() == old(View()).(generatedCopy := Some(result.value))
      ensures result.Err? ==> View() == old(View()).(alerts := old(alerts) + [GenerateFailedAlert])
    {
      isGenerating := true;
      request := CopyRequest(titleTemplate, contentTemplate);
      if result.Ok? {
        generatedCopy := Some(result.value);
      } else {
        alerts := alerts + [GenerateFailedAlert];
      }
      isGenerating := false;
    }

    /** The title editor, rendered only once a copy exists. */
    method EditTitle(text: string)
      requires generatedCopy.Some?
      modifies this
      ensures View() == old(View()).(generatedCopy := Some(old(generatedCopy).value.(title := text)))
    {
      generatedCopy := Some(generatedCopy.value.(title := text));
    }

    /** The content editor, rendered only once a copy exists. */
    method EditContent(text: string)
      requires generatedCopy.Some?
      modifies this
      ensures View() == old(View()).(generatedCopy := Some(old(generatedCopy).value.(content := text)))
    {
      generatedCopy := Some(generatedCopy.value.(content := text));
    }

    /** The "完成" button, rendered only once a copy exists: the copy passed to `onConfirm`. */
    method Confirm() returns (copy: SocialCopy)
      requires generatedCopy.Some?
      ensures copy == generatedCopy.value
    {
      copy := generatedCopy.value;
    }
  }
}
