/**
  The page listing a user's saved snippets (Frontend/src/components/SavedCodes.jsx):
  the technologies a snippet uses, the card that is expanded with its
  active tab, and the confirmation asked before a snippet is removed.
*/
module SavedCodes {
  import opened Wrappers
  import opened Text


  /** A saved snippet as the server returns it; a field may be missing. */
  datatype SavedCode = SavedCode(id: string, name: string, html: Option<string>, css: Option<string>, js: Option<string>)

  /** A technology badge, in the fixed order HTML, CSS, JS. */
  datatype Tech = HTML | CSS | JS {

    function Label(): string {
      match this
      case HTML => "HTML"
      case CSS => "CSS"
      case JS => "JS"
    }

    function Rank(): nat {
      match this
      case HTML => 0
      case CSS => 1
      case JS => 2
    }

    /** The badge's label lower-cased: the tab it opens. */
    function TabKey(): (k: string)
      ensures k == ToLower(Label())
      ensures k == "html" || k == "css" || k == "js"
    {
      match this
      case HTML => "html"
      case CSS => "css"
      case JS => "js"
    }
  }

  function Field(code: SavedCode, tech: Tech): Option<string> {
    match tech
    case HTML => code.html
    case CSS => code.css
    case JS => code.js
  }

  /** `field?.trim()` is truthy: the field is present and not blank. */
  predicate HasContent(field: Option<string>) {
    field.Some? && !AllWhitespace(field.value)
  }

  /** `getTechStack`: the badges of the fields with content, in order. */
  method GetTechStack(code: SavedCode) returns (stack: seq<Tech>)
    ensures forall t :: t in stack <==> HasContent(Field(code, t))
    ensures forall i, j :: 0 <= i < j < |stack| ==> stack[i].Rank() < stack[j].Rank()
    ensures |stack| <= 3
  {
    stack := [];
    if HasContent(code.html) {
      stack := stack + [HTML];
    }
    if HasContent(code.css) {
      stack := stack + [CSS];
    }
    if HasContent(code.js) {
      stack := stack + [JS];
    }
  }

  /** What `getActiveTabContent` shows for `tab`: the field of that name,
      and the empty string for any other tab. */
  function TabContent(tab: string, code: SavedCode): (r: Option<string>)
    ensures tab == "html" ==> r == code.html
    ensures tab == "css" ==> r == code.css
    ensures tab == "js" ==> r == code.js
    ensures tab != "html" && tab != "css" && tab != "js" ==> r == Some("")
  {
    if tab == "html" then code.html
    else if tab == "css" then code.css
    else if tab == "js" then code.js
    else Some("")
  }

  /** `tech` is the first technology, in badge order, whose field has content. */
  predicate FirstWithContent(code: SavedCode, tech: Tech) {
    HasContent(Field(code, tech))
    && forall u: Tech :: u.Rank() < tech.Rank() ==> !HasContent(Field(code, u))
  }

  /** The tab a card opens on: when some field has content, the tab of the
      first such field, which then shows text that is not blank; otherwise
      the tab that was open before. */
  predicate OpensFirstTab(code: SavedCode, tab: string, previous: string) {
    ((exists t :: HasContent(Field(code, t))) ==>
       HasContent(TabContent(tab, code)) && exists t: Tech :: tab == t.TabKey() && FirstWithContent(code, t))
    && ((forall t :: !HasContent(Field(code, t))) ==> tab == previous)
  }

  /** A badge's tab shows that badge's field. */
  lemma TabShowsField(tech: Tech, code: SavedCode)
    ensures TabContent(tech.TabKey(), code) == Field(code, tech)
  {
  }

  /** The saved-codes page's state. */
  class SavedCodesView {
    var savedCodes: seq<SavedCode>
    var expandedCard: Option<string>
    var activeTab: string
    var showConfirmModal: bool
    var codeToDelete: Option<string>

    /** The active tab is always one of the three tabs. */
    ghost predicate Valid()
      reads this
    {
      activeTab == "html" || activeTab == "css" || activeTab == "js"
    }

    /** Nothing loaded, no card expanded, the markup tab active and no
        removal pending. */
    constructor ()
      ensures Valid()
      ensures savedCodes == [] && expandedCard.None? && activeTab == "html"
      ensures !showConfirmModal && codeToDelete.None?
    {
      savedCodes := [];
      expandedCard := None;
      activeTab := "html";
      showConfirmModal := false;
      codeToDelete := None;
    }

    /** `getActiveTabContent`. */
    function GetActiveTabContent(code: SavedCode): (r: Option<string>)
      reads this
      ensures Valid() ==> exists t: Tech :: t.TabKey() == activeTab && r == Field(code, t)
    {
      var r := TabContent(activeTab, code);
      assert activeTab == "html" ==> HTML.TabKey() == activeTab && r == Field(code, HTML);
      assert activeTab == "css" ==> CSS.TabKey() == activeTab && r == Field(code, CSS);
      assert activeTab == "js" ==> JS.TabKey() == activeTab && r == Field(code, JS);
      r
    }

    /** `handleViewCode`: clicking the expanded card collapses it and keeps
        the tab; clicking another card, which must be in the list, expands
        it and opens the tab of its first technology with content, so that
        the open tab shows text that is not blank. */
    method HandleViewCode(codeId: string)
      requires Valid()
      requires expandedCard != Some(codeId) ==> exists i :: 0 <= i < |savedCodes| && savedCodes[i].id == codeId
      modifies this`expandedCard, this`activeTab
      ensures Valid()
      ensures old(expandedCard) == Some(codeId) ==> expandedCard.None? && activeTab == old(activeTab)
      ensures old(expandedCard) != Some(codeId) ==>
                expandedCard == Some(codeId)
                && exists i :: 0 <= i < |savedCodes| && savedCodes[i].id == codeId
                     && (forall j :: 0 <= j < i ==> savedCodes[j].id != codeId)
                     && OpensFirstTab(savedCodes[i], activeTab, old(activeTab))
    {
      if expandedCard == Some(codeId) {
        expandedCard := None;
      } else {
        expandedCard := Some(codeId);
        var found := Find(savedCodes, (c: SavedCode) => c.id == codeId);
        var i := found.value;
        var code := savedCodes[i];
        var stack := GetTechStack(code);
        if |stack| > 0 {
          activeTab := stack[0].TabKey();
          TabShowsField(stack[0], code);
          assert FirstWithContent(code, stack[0]);
        }
        assert OpensFirstTab(code, activeTab, old(activeTab));
        assert forall j :: 0 <= j < i ==> savedCodes[j].id != codeId;
      }
    }

    /** A tab button: only the tab of a badge can be chosen. */
    method SelectTab(tech: Tech)
      requires Valid()
      modifies this`activeTab
      ensures Valid()
      ensures activeTab == tech.TabKey()
    {
      activeTab := tech.TabKey();
    }

    /** `handleUnsaveClick`: the snippet is marked for removal and the
        confirmation opens. */
    method HandleUnsaveClick(id: string)
      modifies this`codeToDelete, this`showConfirmModal
      ensures codeToDelete == Some(id) && showConfirmModal
    {
      codeToDelete := Some(id);
      showConfirmModal := true;
    }

    /** `cancelUnsave`: the confirmation closes and nothing stays marked. */
    method CancelUnsave()
      modifies this`codeToDelete, this`showConfirmModal
      ensures codeToDelete.None? && !showConfirmModal
    {
      showConfirmModal := false;
      codeToDelete := None;
    }
  }
}
