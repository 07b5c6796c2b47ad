/** The frontend's two stores: the recipe store, a record of five fields
    each replaced by its setter, and the feedback store, a map from recipe
    id to the feedback submitted for it. */
module RecipeStore {
  import opened JsValues
  import opened RecipeTypes

  /** `useRecipeStore`. */
  class RecipeStore {
    var recipes: seq<Recipe>
    var selectedRecipe: Option<Recipe>
    var recipeDetail: Option<RecipeDetail>
    var loading: bool
    var error: Option<string>

    /** The state the store is created with and `clearState` returns to. */
    predicate Initial()
      reads this
    {
      recipes == [] && selectedRecipe.None? && recipeDetail.None? && !loading && error.None?
    }

    constructor()
      ensures Initial()
    {
      recipes := [];
      selectedRecipe := None;
      recipeDetail := None;
      loading := false;
      error := None;
    }

    method SetRecipes(rs: seq<Recipe>)
      modifies this
      ensures recipes == rs
      ensures selectedRecipe == old(selectedRecipe) && recipeDetail == old(recipeDetail)
      ensures loading == old(loading) && error == old(error)
    {
      recipes := rs;
    }

    method SetSelectedRecipe(r: Option<Recipe>)
      modifies this
      ensures selectedRecipe == r
      ensures recipes == old(recipes) && recipeDetail == old(recipeDetail)
      ensures loading == old(loading) && error == old(error)
    {
      selectedRecipe := r;
    }

    method SetRecipeDetail(d: Option<RecipeDetail>)
      modifies this
      ensures recipeDetail == d
      ensures recipes == old(recipes) && selectedRecipe == old(selectedRecipe)
      ensures loading == old(loading) && error == old(error)
    {
      recipeDetail := d;
    }

    method SetLoading(b: bool)
      modifies this
      ensures loading == b
      ensures recipes == old(recipes) && selectedRecipe == old(selectedRecipe)
      ensures recipeDetail == old(recipeDetail) && error == old(error)
    {
      loading := b;
    }

    method SetError(e: Option<string>)
      modifies this
      ensures error == e
      ensures recipes == old(recipes) && selectedRecipe == old(selectedRecipe)
      ensures recipeDetail == old(recipeDetail) && loading == old(loading)
    {
      error := e;
    }

    method ClearState()
      modifies this
      ensures Initial()
    {
      recipes := [];
      selectedRecipe := None;
      recipeDetail := None;
      loading := false;
      error := None;
    }
  }

  /** `submittedFeedback[recipeId] || null`: a stored feedback object is
      truthy, so it is returned whenever the id is present. */
  function LookupFeedback(submitted: map<string, Feedback>, recipeId: string): (r: Option<Feedback>)
    ensures r.Some? <==> recipeId in submitted
    ensures r.Some? ==> r.value == submitted[recipeId]
  {
    if recipeId in submitted then Some(submitted[recipeId]) else None
  }

  /** `{ ...submitted, [recipeId]: feedback }`. */
  function WithFeedback(submitted: map<string, Feedback>, recipeId: string, feedback: Feedback): map<string, Feedback> {
    submitted[recipeId := feedback]
  }

  /** After a submission the id reads back the new feedback, any earlier
      one is overwritten, and every other id reads as before. */
  lemma SubmitThenLookup(submitted: map<string, Feedback>, recipeId: string, feedback: Feedback, other: string)
    ensures LookupFeedback(WithFeedback(submitted, recipeId, feedback), recipeId) == Some(feedback)
    ensures other != recipeId ==>
      LookupFeedback(WithFeedback(submitted, recipeId, feedback), other) == LookupFeedback(submitted, other)
    ensures WithFeedback(WithFeedback(submitted, recipeId, feedback), recipeId, feedback)
            == WithFeedback(submitted, recipeId, feedback)
  {
  }

  /** `useFeedbackStore`. */
  class FeedbackStore {
    var submittedFeedback: map<string, Feedback>

    constructor()
      ensures submittedFeedback == map[]
    {
      submittedFeedback := map[];
    }

    /** `submitFeedback`: stored under the given id, whatever id the
        feedback itself names. */
    method SubmitFeedback(recipeId: string, feedback: Feedback)
      modifies this
      ensures submittedFeedback == WithFeedback(old(submittedFeedback), recipeId, feedback)
    {
      submittedFeedback := submittedFeedback[recipeId := feedback];
    }

    /** `getFeedback`. */
    method GetFeedback(recipeId: string) returns (r: Option<Feedback>)
      ensures r == LookupFeedback(submittedFeedback, recipeId)
    {
      if recipeId in submittedFeedback {
        r := Some(submittedFeedback[recipeId]);
      } else {
        r := None;
      }
    }
  }
}
