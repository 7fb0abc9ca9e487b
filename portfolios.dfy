/** The portfolio list and selection rules of cryptoInvestor.js: finding the selected
    portfolio by id, the highlight of the sidebar entry (as a set of highlighted ids),
    and the guard in front of a delete. */
module Portfolios {
  import opened Js

  datatype Portfolio = Portfolio(Id: string, Name: string)

  /** The value of `selectedPortfolio`: the initial `{}` (an object without an Id),
      `undefined` (what `find` gives when nothing matches, or `portfolios[-1]`), or a
      portfolio of the list. */
  datatype Selection = Blank | Undefined | Chosen(portfolio: Portfolio)

  /** `portfolios.find(p => p.Id == id)`: the first portfolio with that Id, if any.
      An absent id (`undefined`) matches no portfolio. */
  function Find(portfolios: seq<Portfolio>, id: Option<string>): (r: Selection)
    ensures r != Blank
    ensures r.Chosen? <==> exists i :: 0 <= i < |portfolios| && Some(portfolios[i].Id) == id
    ensures r.Chosen? ==> exists i :: 0 <= i < |portfolios| && portfolios[i] == r.portfolio
                                 && Some(r.portfolio.Id) == id
                                 && forall j :: 0 <= j < i ==> Some(portfolios[j].Id) != id
  {
    if portfolios == [] then Undefined
    else if Some(portfolios[0].Id) == id then Chosen(portfolios[0])
    else
      var rest := Find(portfolios[1..], id);
      if rest.Chosen? then
        assert forall i :: 1 <= i < |portfolios| ==> portfolios[i] == portfolios[1..][i - 1];
        rest
      else rest
  }

  /** Selecting the Id of the first portfolio of the list selects that portfolio. */
  lemma FindHead(portfolios: seq<Portfolio>)
    requires portfolios != []
    ensures Find(portfolios, Some(portfolios[0].Id)) == Chosen(portfolios[0])
  {
  }

  /** Selecting the Id of a portfolio whose Id is unique in the list selects it. */
  lemma FindUnique(portfolios: seq<Portfolio>, k: nat)
    requires k < |portfolios|
    requires forall j :: 0 <= j < |portfolios| && j != k ==> portfolios[j].Id != portfolios[k].Id
    ensures Find(portfolios, Some(portfolios[k].Id)) == Chosen(portfolios[k])
  {
    var r := Find(portfolios, Some(portfolios[k].Id));
    assert r.Chosen?;
    var i :| 0 <= i < |portfolios| && portfolios[i] == r.portfolio && Some(r.portfolio.Id) == Some(portfolios[k].Id);
  }

  /** Reading `selectedPortfolio.Id`: the Id of a chosen portfolio, nothing for `{}`,
      and a TypeError for `undefined`. */
  datatype IdRead = TypeError | Read(id: Option<string>)

  function ReadId(s: Selection): (r: IdRead)
    ensures r.TypeError? <==> s.Undefined?
  {
    match s
    case Blank => Read(None)
    case Undefined => TypeError
    case Chosen(p) => Read(Some(p.Id))
  }

  /** A string is truthy when it is not empty; an absent value is falsy. */
  predicate TruthyId(id: Option<string>) {
    id.Some? && id.value != ""
  }

  /** What handleDelete does: ask the server to delete a portfolio with a truthy
      selected Id, report an invalid selection otherwise, or throw when there is no
      selected object at all. */
  datatype DeleteOutcome = DeleteRequested(id: string) | InvalidSelection | Thrown

  function DeleteRequest(s: Selection): (r: DeleteOutcome)
    ensures r.DeleteRequested? <==> s.Chosen? && s.portfolio.Id != ""
    ensures r.DeleteRequested? ==> r.id == s.portfolio.Id
    ensures r.Thrown? <==> s.Undefined?
    ensures r == InvalidSelection <==> s.Blank? || (s.Chosen? && s.portfolio.Id == "")
  {
    match ReadId(s)
    case TypeError => Thrown
    case Read(id) => if TruthyId(id) then DeleteRequested(id.value) else InvalidSelection
  }

  /** The Ids for which the sidebar holds an element. */
  function RenderedIds(portfolios: seq<Portfolio>): (r: set<string>)
    ensures forall p :: p in portfolios ==> p.Id in r
    ensures forall x :: x in r ==> exists p :: p in portfolios && p.Id == x
  {
    set p | p in portfolios :: p.Id
  }

  /** togglePortfolioSelection on the element of an id: `classList.toggle`. */
  function Toggle(highlighted: set<string>, id: string): (r: set<string>)
    ensures id in r <==> id !in highlighted
    ensures forall x :: x != id ==> (x in r <==> x in highlighted)
  {
    if id in highlighted then highlighted - {id} else highlighted + {id}
  }

  /** Toggling twice restores the highlight. */
  lemma ToggleTwice(highlighted: set<string>, id: string)
    ensures Toggle(Toggle(highlighted, id), id) == highlighted
  {
  }

  /** The element updatePortfolioHighlight toggles second: the one whose `data-id` is
      the selected id, when the sidebar has one. */
  function CurrentElement(portfolios: seq<Portfolio>, id: Option<string>): Option<string> {
    if id.Some? && id.value in RenderedIds(portfolios) then Some(id.value) else None
  }

  /** updatePortfolioHighlight with at most one entry highlighted: the highlighted one
      (if any) is toggled off, then the selected one toggled. */
  ghost function Highlight(highlighted: set<string>, portfolios: seq<Portfolio>, id: Option<string>): (r: set<string>)
    requires |highlighted| <= 1
    ensures |r| <= 1
    ensures r == if CurrentElement(portfolios, id).Some? then {id.value} else {}
  {
    var cleared := if highlighted == {} then {} else Toggle(highlighted, ChooseOne(highlighted));
    assert cleared == {} by {
      if highlighted != {} {
        var x := ChooseOne(highlighted);
        assert highlighted == {x} by { SingletonOfOne(highlighted, x); }
      }
    }
    match CurrentElement(portfolios, id)
    case Some(x) => Toggle(cleared, x)
    case None => cleared
  }

  /** `querySelector('.is-selected')` on a sidebar with a highlighted entry. */
  ghost function ChooseOne(s: set<string>): (x: string)
    requires s != {}
    ensures x in s
  {
    var x :| x in s; x
  }

  lemma SingletonOfOne(s: set<string>, x: string)
    requires |s| <= 1 && x in s
    ensures s == {x}
  {
    assert |s - {x}| == |s| - 1;
    assert s - {x} == {};
    assert s == (s - {x}) + {x};
  }

  /** Selecting the entry that is already highlighted keeps it highlighted (off, then
      on again), and selecting the same id twice is the same as once. */
  lemma HighlightReselect(highlighted: set<string>, portfolios: seq<Portfolio>, id: string)
    requires |highlighted| <= 1
    requires id in RenderedIds(portfolios)
    ensures Highlight({id}, portfolios, Some(id)) == {id}
    ensures Highlight(Highlight(highlighted, portfolios, Some(id)), portfolios, Some(id)) == {id}
  {
  }
}
