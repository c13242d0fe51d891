// Page state of the supporters list popup
// (src/features/supporters/SupportersPopup.cpp). The network request is
// represented by the page it asks for and by the response handed to
// `OnLoadPage`.
module SupportersPopup {
  import opened Wrappers
  import Pro
  import Cocos

  /** `SUPPORTERS_PER_PAGE` (src/server/Server.hpp). */
  const SUPPORTERS_PER_PAGE: nat := 10

  /** One supporter of a fetched page: the shown name and the amount that picks its colour. */
  datatype Supporter = Supporter(username: string, accountId: int, supportedAmount: int)

  /** A successful page response; the total is a `size_t`. */
  datatype SupportersPage = SupportersPage(supporters: seq<Supporter>, totalPublicSupporterCount: nat)

  /** A row of the list: a name and its tier colour. */
  datatype Row = Row(name: string, color: Cocos.Color3B)

  /**
   * The last page index for `total` public supporters: pages 0..maxPage hold
   * every supporter ten to a page, and the last of them is not empty.
   */
  function MaxPage(total: nat): (maxPage: nat)
    ensures total == 0 ==> maxPage == 0
    ensures total > 0 ==> maxPage * SUPPORTERS_PER_PAGE < total <= (maxPage + 1) * SUPPORTERS_PER_PAGE
  {
    if total > 0 then (total - 1) / SUPPORTERS_PER_PAGE else 0
  }

  /** Supporter number i (counting from 0) is listed on page i / 10, which is never past the last page. */
  lemma SupporterOnSomePage(total: nat, i: nat)
    requires i < total
    ensures i / SUPPORTERS_PER_PAGE <= MaxPage(total)
  {
  }

  /** The page reached from `page` by a button with tag `tag`: negative results clamp to 0, no upper clamp. */
  function PageAfter(page: nat, tag: int): (r: nat)
    ensures page + tag >= 0 ==> r == page + tag
    ensures page + tag < 0 ==> r == 0
  {
    if page + tag < 0 then 0 else page + tag
  }

  /** "Page: {page + 1}/{maxPage + 1}". */
  function PageLabel(page: nat, maxPage: nat): (text: string)
  {
    "Page: " + NatToString(page + 1) + "/" + NatToString(maxPage + 1)
  }

  class SupportersPopupState {
    var page: nat
    var maxPage: nat
    var nextVisible: bool
    var prevVisible: bool
    var pageLabel: string
    var loadingVisible: bool
    var errorVisible: bool
    var errorLabel: string
    var rows: seq<Row>
    /** Pages requested so far, most recent last. */
    var requests: seq<nat>

    /** Shown page info agrees with the page fields. */
    ghost predicate PageInfoShown()
      reads this
    {
      nextVisible == (page < maxPage)
      && prevVisible == (page > 0)
      && pageLabel == PageLabel(page, maxPage)
    }

    /** `setup`: both page fields start at 0, then page 0 is loaded. */
    constructor ()
      ensures page == 0 && maxPage == 0
      ensures PageInfoShown() && !prevVisible && !nextVisible
      ensures loadingVisible && !errorVisible && rows == []
      ensures requests == [0]
    {
      page := 0;
      maxPage := 0;
      errorLabel := "";
      loadingVisible := true;
      errorVisible := false;
      rows := [];
      nextVisible := false;
      prevVisible := false;
      pageLabel := PageLabel(0, 0);
      requests := [0];
    }

    /** `updatePageInfo`: next shown iff page < maxPage, prev iff page > 0, and the label. */
    method UpdatePageInfo()
      modifies this
      ensures PageInfoShown()
      ensures page == old(page) && maxPage == old(maxPage) && rows == old(rows)
      ensures requests == old(requests) && loadingVisible == old(loadingVisible)
      ensures errorVisible == old(errorVisible) && errorLabel == old(errorLabel)
    {
      nextVisible := page < maxPage;
      prevVisible := page > 0;
      pageLabel := PageLabel(page, maxPage);
    }

    /** `loadPage`: set the page, show the spinner, hide the error, empty the list, request the page. */
    method LoadPage(p: nat)
      modifies this
      ensures page == p && maxPage == old(maxPage)
      ensures loadingVisible && !errorVisible && rows == []
      ensures PageInfoShown()
      ensures requests == old(requests) + [p]
      ensures errorLabel == old(errorLabel)
    {
      page := p;
      loadingVisible := true;
      errorVisible := false;
      rows := [];
      UpdatePageInfo();
      requests := requests + [p];
    }

    /** `onPage`: move by the button's tag, clamped below at 0, and load that page. */
    method OnPage(tag: int)
      modifies this
      ensures page == PageAfter(old(page), tag)
      ensures requests == old(requests) + [page]
      ensures rows == [] && PageInfoShown() && maxPage == old(maxPage)
    {
      var p := page + tag;
      if p < 0 {
        p := 0;
      }
      LoadPage(p);
    }

    /**
     * `onLoadPage` for a finished request: on success the last page index is
     * recomputed and one coloured row is added per supporter; on failure the
     * error is shown.
     */
    method OnLoadPage(response: Result<SupportersPage>)
      modifies this
      ensures !loadingVisible && page == old(page)
      ensures response.Ok? ==>
        maxPage == MaxPage(response.value.totalPublicSupporterCount)
        && PageInfoShown()
        && |rows| == |old(rows)| + |response.value.supporters|
        && rows[..|old(rows)|] == old(rows)
        && (forall k :: 0 <= k < |response.value.supporters| ==>
              rows[|old(rows)| + k]
                == Row(response.value.supporters[k].username,
                       Pro.SupporterColor(response.value.supporters[k].supportedAmount)))
      ensures response.Err? ==>
        errorVisible && errorLabel == response.error
        && maxPage == old(maxPage) && rows == old(rows)
        && nextVisible == old(nextVisible) && prevVisible == old(prevVisible) && pageLabel == old(pageLabel)
      ensures response.Ok? ==> errorVisible == old(errorVisible) && errorLabel == old(errorLabel)
      ensures requests == old(requests)
    {
      loadingVisible := false;
      if response.Ok? {
        var data := response.value;
        maxPage := if data.totalPublicSupporterCount > 0
          then (data.totalPublicSupporterCount - 1) / SUPPORTERS_PER_PAGE else 0;
        UpdatePageInfo();
        var i := 0;
        while i < |data.supporters|
          invariant 0 <= i <= |data.supporters|
          invariant |rows| == |old(rows)| + i
          invariant rows[..|old(rows)|] == old(rows)
          invariant forall k :: 0 <= k < i ==>
            rows[|old(rows)| + k] == Row(data.supporters[k].username, Pro.SupporterColor(data.supporters[k].supportedAmount))
          invariant PageInfoShown() && !loadingVisible && page == old(page)
          invariant maxPage == MaxPage(data.totalPublicSupporterCount)
          invariant requests == old(requests)
          invariant errorVisible == old(errorVisible) && errorLabel == old(errorLabel)
        {
          var s := data.supporters[i];
          rows := rows + [Row(s.username, Pro.SupporterColor(s.supportedAmount))];
          i := i + 1;
        }
      } else {
        errorLabel := response.error;
        errorVisible := true;
      }
    }
  }
}
