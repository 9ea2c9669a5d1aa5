/**
  The tabbed editor of one snippet (Frontend/src/components/codes/CodeEditor.jsx):
  which tabs exist, which one is active, what the text area shows and what
  an edit reports to the playground.
*/
module CodeEditor {
  import opened Wrappers
  import opened Text
  import opened Codes

  /** The placeholder is rendered instead of an editor exactly when no
      field is present. */
  predicate ShowsPlaceholder(codes: PartialCodes) {
    forall lang :: codes.Get(lang).None?
  }

  /** `getAvailableTabs`: the tabs html, css, js in that order, each present
      exactly when its field is not `undefined` (an empty field still has
      a tab). */
  method AvailableTabs(codes: PartialCodes) returns (tabs: seq<Lang>)
    ensures forall lang :: lang in tabs <==> codes.Get(lang).Some?
    ensures forall i, j :: 0 <= i < j < |tabs| ==> tabs[i].Rank() < tabs[j].Rank()
    ensures |tabs| <= 3
    ensures |tabs| == 0 <==> ShowsPlaceholder(codes)
  {
    tabs := [];
    if codes.html.Some? {
      tabs := tabs + [Html];
    }
    if codes.css.Some? {
      tabs := tabs + [Css];
    }
    if codes.js.Some? {
      tabs := tabs + [Js];
    }
    if tabs != [] {
      assert codes.Get(tabs[0]).Some?;
    }
  }

  /** `codes[tab] || ''`: what the text area shows and what the copy button
      copies. */
  function DisplayedText(codes: PartialCodes, tab: Lang): (r: string)
    ensures codes.Get(tab).Some? ==> r == codes.Get(tab).value
    ensures codes.Get(tab).None? ==> r == ""
  {
    codes.Get(tab).GetOr("")
  }

  /** A complete record always gets an editor with all three tabs. */
  lemma WholeHasNoPlaceholder(c: Codes)
    ensures !ShowsPlaceholder(Whole(c))
  {
    assert Whole(c).Get(Html).Some?;
  }

  /** What the text area of tab `lang` shows once the playground has stored
      an edit of it: exactly the text typed, or nothing for a missing
      value; the other tabs show what they showed. */
  lemma EditThenDisplay(c: Codes, lang: Lang, newCode: Option<string>)
    ensures DisplayedText(Whole(c.With(lang, Or(newCode, ""))), lang) == Or(newCode, "")
    ensures forall other :: other != lang ==>
              DisplayedText(Whole(c.With(lang, Or(newCode, ""))), other) == DisplayedText(Whole(c), other)
  {
  }

  /** The editor's state: the active tab. */
  class Editor {
    var activeTab: Lang

    /** The markup tab is active at first. */
    constructor ()
      ensures activeTab == Html
    {
      activeTab := Html;
    }

    /** The effect that runs on every render: when some tab exists and the
        active one does not, the first existing tab becomes active; an
        active tab that exists stays. */
    method SyncActiveTab(codes: PartialCodes)
      modifies this
      ensures codes.Get(old(activeTab)).Some? ==> activeTab == old(activeTab)
      ensures ShowsPlaceholder(codes) ==> activeTab == old(activeTab)
      ensures !ShowsPlaceholder(codes) ==> codes.Get(activeTab).Some?
      ensures activeTab != old(activeTab) ==>
                forall lang: Lang :: lang.Rank() < activeTab.Rank() ==> codes.Get(lang).None?
    {
      var tabs := AvailableTabs(codes);
      assert |tabs| > 0 ==> tabs[0] in tabs;
      var current := activeTab;
      var found := Find(tabs, (tab: Lang) => tab == current);
      if |tabs| > 0 && found.None? {
        assert current !in tabs;
        activeTab := tabs[0];
      } else if found.Some? {
        assert current in tabs;
      }
      if !ShowsPlaceholder(codes) {
        var lang :| codes.Get(lang).Some?;
        assert lang in tabs;
      }
    }

    /** A tab button. */
    method SelectTab(tab: Lang)
      modifies this
      ensures activeTab == tab
    {
      activeTab := tab;
    }

    /** `handleCodeChange`: when the playground passed a handler, the edit is
        reported for the active tab, a missing value as the empty string;
        without a handler nothing is reported. */
    function HandleCodeChange(newCode: Option<string>, hasHandler: bool): (call: Option<(Lang, string)>)
      reads this
      ensures hasHandler ==> call == Some((activeTab, Or(newCode, "")))
      ensures !hasHandler ==> call.None?
    {
      if hasHandler then Some((activeTab, Or(newCode, ""))) else None
    }
  }
}
