/**
 * The `App` component: its four state cells, the load that runs once on
 * mount, the search box's change handler and the view they select.
 */
module App {
  import opened Wrappers
  import opened Text
  import opened Search
  import opened Loader
  import opened Views

  class MemeViewer {
    var memes: seq<Meme>
    var searchTerm: string
    var loading: bool
    var error: Option<string>

    /** The initial values of the four `useState` cells. */
    constructor ()
      ensures memes == [] && searchTerm == "" && loading && error == None
      ensures CurrentView() == Loading
    {
      memes := [];
      searchTerm := "";
      loading := true;
      error := None;
    }

    /** The cells the loader writes. */
    function Cells(): LoadState
      reads this
    {
      LoadState(memes, loading, error)
    }

    /** The memoised `filteredMemes`. */
    function FilteredMemes(): seq<Meme>
      reads this
    {
      Filter(memes, searchTerm)
    }

    /** What the page currently renders. */
    function CurrentView(): View
      reads this
    {
      SelectView(loading, error, FilteredMemes())
    }

    /**
     * `fetchMemes`: raise `loading`, clear `error`, run the request (its
     * result given as `outcome`), route every failure through one `catch`,
     * and lower `loading` in the `finally` step.
     */
    method Load(outcome: FetchOutcome)
      modifies this
      ensures Cells() == Settled(old(Cells()), outcome)
      ensures searchTerm == old(searchTerm)
    {
      loading := true;
      error := None;
      var caught: Option<Thrown> := None;
      match outcome {
        case NotOk =>
          caught := Some(ErrorObject(NotOkMessage));
        case Received(success, field) =>
          if !success {
            caught := Some(ErrorObject(UnexpectedResponseMessage));
          } else {
            memes := if field.Some? then field.value else [];
          }
        case Threw(t) =>
          caught := Some(t);
      }
      if caught.Some? {
        error := Some(CaughtMessage(caught.value));
      }
      loading := false;
    }

    /** The search box's `onChange`: only the query changes, so only Empty and Populated swap. */
    method SetSearchTerm(query: string)
      modifies this`searchTerm
      ensures searchTerm == query
      ensures IsResults(CurrentView()) <==> IsResults(old(CurrentView()))
      ensures old(CurrentView()).Loading? ==> CurrentView().Loading?
      ensures old(CurrentView()).Failure? ==> CurrentView() == old(CurrentView())
    {
      searchTerm := query;
      ListOnlyTogglesResults(loading, error, Filter(memes, old(searchTerm)), Filter(memes, query));
    }
  }

  /** The view once a load has finished, for whatever is typed in the search box. */
  lemma ViewAfterLoad(before: LoadState, outcome: FetchOutcome, query: string)
    ensures var after := Settled(before, outcome);
      var v := SelectView(after.loading, after.error, Filter(after.memes, query));
      && !v.Loading?
      && (outcome.NotOk? ==> v == Failure(NotOkMessage))
      && (outcome.Received? && !outcome.successTruthy ==> v == Failure(UnexpectedResponseMessage))
      && (outcome == Threw(NonError) ==> v == Failure(FallbackMessage))
      && (outcome.Threw? && outcome.thrown.ErrorObject? ==>
            if outcome.thrown.message == "" then v.Empty? || v.Populated? else v == Failure(outcome.thrown.message))
      && (Succeeded(outcome) ==> v.Empty? || v.Populated?)
      && (Succeeded(outcome) && AllSpace(query) ==> (v.Empty? <==> after.memes == []))
  {
  }

  /** The two-template listing used as the running example. */
  const Drake := Meme("1", "Drake", "u1")
  const Doge := Meme("2", "Doge", "u2")

  lemma KeepMatchingTwo(term: string)
    ensures KeepMatching([Drake, Doge], term)
         == (if Matches(Drake, term) then [Drake] else []) + (if Matches(Doge, term) then [Doge] else [])
  {
  }

  /** Loading the two-template listing gives both records, no error, not loading. */
  lemma TwoTemplateLoad()
    ensures Settled(LoadState([], true, None), Received(true, Some([Drake, Doge])))
         == LoadState([Drake, Doge], false, None)
  {
  }

  lemma LoweredNames()
    ensures Lower(Drake.name) == "drake" && Lower(Doge.name) == "doge"
  {
  }

  lemma TermOfLowerWord(w: string)
    requires w != [] && forall i :: 0 <= i < |w| ==> 'a' <= w[i] <= 'z'
    ensures Term(w) == w
  {
  }

  lemma UpperDoge()
    ensures Lower("DOGE") == "doge"
  {
  }

  lemma MatchesDra()
    ensures Matches(Drake, "dra") && !Matches(Doge, "dra")
  {
    LoweredNames();
    assert "drake"[..3] == "dra";
    assert StartsWith("drake", "dra");
    assert "doge"[..3] != "dra" && "doge"[1..] == "oge";
    assert "oge"[..3] != "dra" && "oge"[1..] == "ge";
    IncludesTooLong("ge", "dra");
    assert !Includes("oge", "dra");
    assert !Includes("doge", "dra");
  }

  lemma MatchesDoge()
    ensures !Matches(Drake, "doge") && Matches(Doge, "doge")
  {
    LoweredNames();
    assert "drake"[..4] != "doge" && "drake"[1..] == "rake";
    assert "rake"[..4] != "doge" && "rake"[1..] == "ake";
    IncludesTooLong("ake", "doge");
    assert !Includes("rake", "doge");
    assert !Includes("drake", "doge");
    assert "doge"[..4] == "doge";
    assert StartsWith("doge", "doge");
  }

  lemma MatchesZzz()
    ensures !Matches(Drake, "zzz") && !Matches(Doge, "zzz")
  {
    LoweredNames();
    assert "drake"[..3] != "zzz" && "drake"[1..] == "rake";
    assert "rake"[..3] != "zzz" && "rake"[1..] == "ake";
    assert "ake"[..3] != "zzz" && "ake"[1..] == "ke";
    IncludesTooLong("ke", "zzz");
    assert !Includes("ake", "zzz");
    assert !Includes("rake", "zzz");
    assert !Includes("drake", "zzz");
    assert "doge"[..3] != "zzz" && "doge"[1..] == "oge";
    assert "oge"[..3] != "zzz" && "oge"[1..] == "ge";
    IncludesTooLong("ge", "zzz");
    assert !Includes("oge", "zzz");
    assert !Includes("doge", "zzz");
  }

  /** Typing "dra" leaves exactly Drake. */
  lemma TwoTemplateQueryDra()
    ensures Filter([Drake, Doge], "dra") == [Drake]
  {
    TermOfLowerWord("dra");
    MatchesDra();
    KeepMatchingTwo("dra");
  }

  lemma TwoTemplateQueryLowerDoge()
    ensures Filter([Drake, Doge], "doge") == [Doge]
  {
    TermOfLowerWord("doge");
    MatchesDoge();
    KeepMatchingTwo("doge");
  }

  /** "DOGE" and "doge" both leave exactly Doge. */
  lemma TwoTemplateQueryDoge()
    ensures Filter([Drake, Doge], "DOGE") == Filter([Drake, Doge], "doge") == [Doge]
  {
    UpperDoge();
    FilterCaseInsensitive([Drake, Doge], "DOGE", "doge");
    TwoTemplateQueryLowerDoge();
  }

  /** Typing "zzz" gives the empty view. */
  lemma TwoTemplateQueryZzz()
    ensures SelectView(false, None, Filter([Drake, Doge], "zzz")) == Empty
  {
    TermOfLowerWord("zzz");
    MatchesZzz();
    KeepMatchingTwo("zzz");
  }
}
