/**
  The entered-input handler of the example extension
  (examples/omnibox/new-tab-search/src/lib.rs:44-126): it builds a search
  URL from the entered text and either navigates the current tab to it or
  opens a new tab, depending on the disposition.

  The handler's effect is the sequence of tab requests it issues. The
  host's `tabs.query` is a parameter whose answer decides the tab id, and
  `encodeURIComponent` is a parameter as well; what the host answers to
  `update` and `create` is only logged and is not modelled.
 */
module NewTabSearch {
  import opened Prelude
  import opened Errors
  import opened Omnibox
  import opened Tabs

  /** One request the handler sends to the browser's tabs API. */
  datatype TabRequest =
    | QueryTabs(details: QueryDetails)
    | UpdateTab(tabId: Option<TabId>, props: UpdateProperties)
    | CreateTab(properties: CreateProperties)

  const SearchPrefix := "https://www.google.com/search?q="

  /** The search URL: the fixed prefix followed by the encoded text. */
  function SearchUrl(text: string, encodeUriComponent: string -> string): (url: string)
    ensures |url| == |SearchPrefix| + |encodeUriComponent(text)|
    ensures url[..|SearchPrefix|] == SearchPrefix
    ensures url[|SearchPrefix|..] == encodeUriComponent(text)
  {
    SearchPrefix + encodeUriComponent(text)
  }

  /** Two texts give the same URL exactly when they encode alike. */
  lemma SearchUrlInjective(a: string, b: string, encodeUriComponent: string -> string)
    ensures (SearchUrl(a, encodeUriComponent) == SearchUrl(b, encodeUriComponent))
            <==> (encodeUriComponent(a) == encodeUriComponent(b))
  {
  }

  /**
    The filter for the current tab: the active tab of the last focused
    window, every other filter left unset. `QueryDetails` derives no
    `Default` in this snapshot; the values here are what a derived one
    would give (`None`, and 0 for the window id).
   */
  function CurrentTabQuery(): (q: QueryDetails)
    ensures q.active == Some(true) && q.lastFocusedWindow == Some(true)
    ensures q.audible.None? && q.autoDiscardable.None? && q.cookieStoreId.None? && q.currentWindow.None?
    ensures q.discarded.None? && q.hidden.None? && q.highlighted.None? && q.index.None? && q.muted.None?
    ensures q.pinned.None? && q.status.None? && q.title.None? && q.url.None? && q.windowType.None?
    ensures q.windowId == 0
  {
    QueryDetails(Some(true), None, None, None, None, None, None, None, None, None,
                 Some(true), None, None, None, None, 0, None)
  }

  /** The update for the current tab: navigate to the URL and change nothing else. */
  function NavigateTo(url: string): (p: UpdateProperties)
    ensures p.url == Some(url)
    ensures p == DefaultUpdateProperties().(url := Some(url))
  {
    UpdateProperties(None, None, None, None, None, None, None, Some(url))
  }

  /**
    The handler. For `CurrentTab` it queries the tabs, takes the id of the
    first tab found (none when the query fails or finds nothing), and
    updates that tab, or the current one when there is no id. For the other
    two dispositions it creates a tab, active exactly for
    `NewForegroundTab`. Exactly one update or create is issued, as the last
    request, and only a query can come before it.
   */
  method OnInputEntered(text: string, disposition: Disposition,
                        encodeUriComponent: string -> string,
                        queryTabs: QueryDetails -> Result<seq<Tab>, Error>)
    returns (requests: seq<TabRequest>)
    ensures |requests| == (if disposition == CurrentTab then 2 else 1)
    ensures forall i :: 0 <= i < |requests| - 1 ==> requests[i] == QueryTabs(CurrentTabQuery())
    ensures disposition == CurrentTab ==>
              var found := queryTabs(CurrentTabQuery());
              && requests[1].UpdateTab?
              && requests[1].props == NavigateTo(SearchUrl(text, encodeUriComponent))
              && (found.Ok? && found.value != [] ==> requests[1].tabId == found.value[0].id)
              && (found.Err? || found.value == [] ==> requests[1].tabId == None)
    ensures disposition != CurrentTab ==>
              && requests[0].CreateTab?
              && requests[0].properties.url == SearchUrl(text, encodeUriComponent)
              && (requests[0].properties.active <==> disposition == NewForegroundTab)
  {
    var url := SearchUrl(text, encodeUriComponent);
    requests := [];
    var tabId: Option<TabId> := None;
    if disposition == CurrentTab {
      var query := CurrentTabQuery();
      requests := requests + [QueryTabs(query)];
      match queryTabs(query) {
        case Ok(tabs) =>
          if |tabs| > 0 {
            tabId := tabs[0].id;
          }
        case Err(_) =>
      }
    }
    if disposition == CurrentTab {
      requests := requests + [UpdateTab(tabId, NavigateTo(url))];
    } else {
      requests := requests + [CreateTab(CreateProperties(disposition == NewForegroundTab, url))];
    }
  }
}
