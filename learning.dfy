/** The learning hub page: the search-and-tab filter over the learning
    modules and the label of each module's action button. */
module Learning {
  import opened Wrappers
  import opened Text
  import opened Seqs

  /** A learning module as the page receives it; `completed` and `progress`
      may be missing. */
  datatype LearningModule = LearningModule(
    id: string, title: string, description: string, tags: seq<string>,
    duration: string, completed: Option<bool>, progress: Option<int>)

  /** `module.completed` is truthy. */
  predicate IsCompleted(m: LearningModule) {
    m.completed == Some(true)
  }

  /** `module.progress && module.progress > 0`. */
  predicate HasProgress(m: LearningModule) {
    Truthy(m.progress) && m.progress.value > 0
  }

  /** `matchesSearch`: the query occurs, ignoring case, in the title, the
      description or one of the tags. */
  predicate MatchesSearch(m: LearningModule, query: string) {
    IncludesIgnoringCase(m.title, query) || IncludesIgnoringCase(m.description, query) ||
    exists i :: 0 <= i < |m.tags| && IncludesIgnoringCase(m.tags[i], query)
  }

  /** The filter's callback: the three known tabs, and every other tab
      treated like `"all"`. */
  predicate Shown(m: LearningModule, query: string, tab: string) {
    if tab == "all" then MatchesSearch(m, query)
    else if tab == "in-progress" then MatchesSearch(m, query) && HasProgress(m) && !IsCompleted(m)
    else if tab == "completed" then MatchesSearch(m, query) && IsCompleted(m)
    else MatchesSearch(m, query)
  }

  /** `filteredModules`: the modules the open tab shows, in list order. */
  function FilteredModules(modules: seq<LearningModule>, query: string, tab: string): (r: seq<LearningModule>)
    ensures IsSubsequence(r, modules)
    ensures tab == "in-progress" ==>
      forall m :: m in r <==> m in modules && MatchesSearch(m, query) && HasProgress(m) && !IsCompleted(m)
    ensures tab == "completed" ==>
      forall m :: m in r <==> m in modules && MatchesSearch(m, query) && IsCompleted(m)
    ensures tab != "in-progress" && tab != "completed" ==>
      forall m :: m in r <==> m in modules && MatchesSearch(m, query)
  {
    FilterIsSubsequence(modules, m => Shown(m, query, tab));
    Filter(modules, m => Shown(m, query, tab))
  }

  /** A tab the page does not know shows exactly what `"all"` shows. */
  lemma UnknownTabIsAll(modules: seq<LearningModule>, query: string, tab: string)
    requires tab != "in-progress" && tab != "completed"
    ensures FilteredModules(modules, query, tab) == FilteredModules(modules, query, "all")
  {
    FilterAgree(modules, m => Shown(m, query, tab), m => Shown(m, query, "all"));
  }

  /** No module is shown both under `"in-progress"` and under `"completed"`,
      and together they show only what `"all"` shows. */
  lemma InProgressAndCompletedAreDisjoint(modules: seq<LearningModule>, query: string, m: LearningModule)
    ensures !(m in FilteredModules(modules, query, "in-progress") && m in FilteredModules(modules, query, "completed"))
    ensures m in FilteredModules(modules, query, "in-progress") || m in FilteredModules(modules, query, "completed") ==>
      m in FilteredModules(modules, query, "all")
  {
  }

  /** With an empty query the `"all"` tab shows every module. */
  lemma EmptyQueryShowsAll(modules: seq<LearningModule>)
    ensures FilteredModules(modules, "", "all") == modules
  {
    forall m | m in modules ensures Shown(m, "", "all") {
      EmptyIncludedEverywhere(m.title);
    }
    FilterAll(modules, m => Shown(m, "", "all"));
  }

  /** The action button's label: `"Review"` for a completed module, else
      `"Continue"` when some progress is recorded, else `"Start"`. */
  function ActionLabel(m: LearningModule): (s: string)
    ensures s == "Review" <==> IsCompleted(m)
    ensures s == "Continue" <==> !IsCompleted(m) && HasProgress(m)
    ensures s == "Start" <==> !IsCompleted(m) && !HasProgress(m)
  {
    if IsCompleted(m) then "Review" else if HasProgress(m) then "Continue" else "Start"
  }

  /** Among the search matches, the `"completed"` tab shows exactly the
      modules labelled `"Review"`, and the `"in-progress"` tab exactly those
      labelled `"Continue"`. */
  lemma LabelAgreesWithTabs(modules: seq<LearningModule>, query: string, m: LearningModule)
    requires m in modules && MatchesSearch(m, query)
    ensures m in FilteredModules(modules, query, "completed") <==> ActionLabel(m) == "Review"
    ensures m in FilteredModules(modules, query, "in-progress") <==> ActionLabel(m) == "Continue"
  {
  }
}
