/**
 * The application shell: which page is on show, who is taking the
 * diagnosis and the answers of the last finished quiz, and the four ways
 * these change (starting, finishing the quiz, retrying, navigating).
 */
module App {
  import opened Wrappers
  import opened StartForm
  import opened Header

  /** The views the shell can show. */
  datatype View = StartView | AboutView | EncyclopediaView | FaqView | QuizView | ResultView

  /** Each view with the page value that shows it. */
  const ROUTES: seq<(string, View)> := [
    ("start", StartView),
    ("about", AboutView),
    ("encyclopedia", EncyclopediaView),
    ("faq", FaqView),
    ("quiz", QuizView),
    ("result", ResultView)
  ]

  /** The page values the shell knows. */
  predicate IsPage(page: string)
  {
    page == "start" || page == "about" || page == "encyclopedia"
    || page == "faq" || page == "quiz" || page == "result"
  }

  /** The views whose route matches `page`, in the order they are laid out. */
  function Rendered(page: string, routes: seq<(string, View)>): seq<View>
  {
    if routes == [] then []
    else (if routes[0].0 == page then [routes[0].1] else []) + Rendered(page, routes[1..])
  }

  function RenderedViews(page: string): seq<View>
  {
    Rendered(page, ROUTES)
  }

  /** No two routes share a page value. */
  predicate DistinctPages(routes: seq<(string, View)>)
  {
    forall i, j | 0 <= i < j < |routes| :: routes[i].0 != routes[j].0
  }

  lemma {:induction false} RenderedOfDistinctPages(page: string, routes: seq<(string, View)>)
    requires DistinctPages(routes)
    ensures |Rendered(page, routes)| <= 1
    ensures Rendered(page, routes) == [] <==> forall i | 0 <= i < |routes| :: routes[i].0 != page
    ensures forall i | 0 <= i < |routes| && routes[i].0 == page :: Rendered(page, routes) == [routes[i].1]
  {
    if routes != [] {
      var tail := routes[1..];
      assert DistinctPages(tail);
      RenderedOfDistinctPages(page, tail);
      assert forall i | 1 <= i < |routes| :: routes[i] == tail[i - 1];
      if routes[0].0 == page {
        assert forall i | 0 <= i < |tail| :: tail[i].0 != page by {
          forall i | 0 <= i < |tail|
            ensures tail[i].0 != page
          {
            assert tail[i] == routes[i + 1];
          }
        }
      }
    }
  }

  /**
   * Any page value shows at most one view; a known page shows exactly its
   * own, and a value that is not a page shows none.
   */
  lemma AtMostOneViewRenders(page: string)
    ensures |RenderedViews(page)| <= 1
    ensures RenderedViews(page) == [] <==> !IsPage(page)
    ensures page == "quiz" ==> RenderedViews(page) == [QuizView]
    ensures page == "result" ==> RenderedViews(page) == [ResultView]
  {
    var r := ROUTES;
    assert r[0].0[0] == 's' && r[1].0[0] == 'a' && r[2].0[0] == 'e' && r[3].0[0] == 'f';
    assert r[4].0[0] == 'q' && r[5].0[0] == 'r';
    assert DistinctPages(r);
    RenderedOfDistinctPages(page, r);
    assert IsPage(page) <==> exists i | 0 <= i < |r| :: r[i].0 == page;
  }

  /** Nothing in the header leads to the quiz or the result page. */
  lemma HeaderNeverOpensQuizOrResult(i: nat)
    requires i < |MENU_ITEMS|
    ensures MENU_ITEMS[i].id != "quiz" && MENU_ITEMS[i].id != "result"
    ensures LOGO_TARGET != "quiz" && LOGO_TARGET != "result"
  {
  }

  class App {
    var currentPage: string
    var userData: Option<UserData>
    var answers: map<int, int>

    /** The quiz and the result page are only ever shown for a known user. */
    ghost predicate Valid()
      reads this
    {
      (currentPage == "quiz" || currentPage == "result") ==> userData.Some?
    }

    constructor()
      ensures Valid()
      ensures currentPage == "start" && userData == None && answers == map[]
    {
      currentPage := "start";
      userData := None;
      answers := map[];
    }

    /** The start form was submitted: remember the user, forget old answers. */
    method Start(data: UserData)
      modifies this
      ensures Valid()
      ensures currentPage == "quiz" && userData == Some(data) && answers == map[]
    {
      userData := Some(data);
      answers := map[];
      currentPage := "quiz";
    }

    /**
     * The quiz handed over its answers: keep them and show the result. The
     * quiz, and with it this handler, is only on show on the quiz page.
     */
    method FinishQuiz(resultAnswers: map<int, int>)
      requires Valid() && currentPage == "quiz"
      modifies this
      ensures Valid() && userData.Some?
      ensures currentPage == "result" && answers == resultAnswers && userData == old(userData)
    {
      answers := resultAnswers;
      currentPage := "result";
    }

    /** Retrying forgets the answers and the user and goes back to the start. */
    method Retry()
      modifies this
      ensures Valid()
      ensures currentPage == "start" && userData == None && answers == map[]
    {
      answers := map[];
      currentPage := "start";
      userData := None;
    }

    /**
     * Navigation stores the page value as given, unchecked; the header only
     * ever asks for pages that keep the shell valid.
     */
    method Navigate(page: string)
      modifies this
      ensures currentPage == page && userData == old(userData) && answers == old(answers)
      ensures page != "quiz" && page != "result" ==> Valid()
    {
      currentPage := page;
    }
  }
}
