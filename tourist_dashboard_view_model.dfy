/** The tourist's home screen: greeting, categories, experiences and favourites. */
module TouristDashboardViewModel {
  import opened Wrappers
  import opened Failures
  import opened Text
  import opened Dtos
  import opened Domain
  import opened Favorites
  import AuthRepository

  const DefaultUserName: string := "Turista"
  const CategoriesFailed: string := "Error al cargar"

  /** The greeting name: the first word of the user's first name, or "Turista" when there is none. */
  function UserNameFor(currentUser: Option<User>): (r: string)
    ensures currentUser.None? || currentUser.value.firstName.None? ==> r == DefaultUserName
    ensures currentUser.Some? && currentUser.value.firstName.Some? ==> r == FirstWord(currentUser.value.firstName.value)
  {
    var name := if currentUser.Some? then currentUser.value.firstName.GetOr(DefaultUserName) else DefaultUserName;
    FirstWord(name)
  }

  /** A first name with a space shows only the part before it; one without is shown whole. */
  lemma UserNameIsFirstWord(u: User, first: string, rest: string)
    requires u.firstName == Some(FullName(first, rest)) && ' ' !in first
    ensures UserNameFor(Some(u)) == first
  {
    SplitFullName(first, rest);
  }

  /** The session store never keeps names, so a restored user is always greeted as "Turista". */
  lemma RestoredUserIsTurista(prefs: map<string, string>)
    ensures UserNameFor(AuthRepository.CurrentUserIn(prefs)) == DefaultUserName
  {
    assert ' ' !in DefaultUserName;
  }

  class TouristDashboardViewModel {
    var experiences: seq<Experience>
    var favorites: seq<Experience>
    var userName: string
    var categories: seq<string>
    const store: FavoriteStore

    constructor (store: FavoriteStore)
      ensures experiences == [] && favorites == [] && userName == DefaultUserName && categories == []
      ensures this.store == store
    {
      experiences := [];
      favorites := [];
      userName := DefaultUserName;
      categories := [];
      this.store := store;
    }

    /** One emission of the sign-in state to `loadUserName`'s collector. */
    method LoadUserName(currentUser: Option<User>)
      modifies this
      ensures userName == UserNameFor(currentUser)
      ensures experiences == old(experiences) && favorites == old(favorites) && categories == old(categories)
    {
      var firstName := UserNameFor(currentUser);
      if userName != firstName {
        userName := firstName;
      }
    }

    /** `loadCategories`, with the names the category service returned. */
    method LoadCategories(fetched: Result<seq<string>>)
      modifies this
      ensures fetched.Ok? ==> categories == fetched.value
      ensures fetched.Err? ==> categories == [CategoriesFailed]
      ensures experiences == old(experiences) && favorites == old(favorites) && userName == old(userName)
    {
      if fetched.Ok? {
        categories := fetched.value;
      } else {
        categories := [CategoriesFailed];
      }
    }

    /**
     * `loadExperiences`, with what the experience endpoint returned: the
     * repository's `getExperiences` maps each record and flags it by the
     * store, so the list is in step with the store; a failure keeps the list.
     */
    method LoadExperiences(fetched: Result<seq<ExperienceDto>>)
      modifies this
      ensures fetched.Ok? ==> experiences == MarkFavorites(fetched.value, store.rows.Keys)
      ensures fetched.Ok? ==> InStep(experiences, store.rows.Keys)
      ensures fetched.Err? ==> experiences == old(experiences)
      ensures favorites == old(favorites) && userName == old(userName) && categories == old(categories)
    {
      if fetched.Ok? {
        experiences := MarkFavorites(fetched.value, store.rows.Keys);
        MarkFavoritesInStep(fetched.value, store.rows.Keys);
      }
    }

    /**
     * `loadFavorites`, with what `getFavorites` returned for the table: on
     * success the favourites are the table's rows, each flagged as a
     * favourite; a failure keeps the list.
     */
    method LoadFavorites(fetched: Result<seq<Experience>>)
      requires fetched.Ok? ==> ListsFavorites(fetched.value, store.rows)
      modifies this
      ensures fetched.Ok? ==> favorites == fetched.value && InStep(favorites, store.rows.Keys)
      ensures fetched.Err? ==> favorites == old(favorites)
      ensures experiences == old(experiences) && userName == old(userName) && categories == old(categories)
    {
      if fetched.Ok? {
        favorites := fetched.value;
        ListedFavoritesInStep(fetched.value, store.rows);
      }
    }

    /**
     * `toggleFavorite`, with what the favourites reload afterwards returns:
     * the store's membership of the id flips, and every listed experience
     * with that id takes the new membership as its flag.
     */
    method ToggleFavorite(experience: Experience, reloaded: Result<seq<Experience>>)
      requires reloaded.Ok? ==> ListsFavorites(reloaded.value, ToggledRows(store.rows, experience))
      modifies this, store
      ensures store.rows == ToggledRows(old(store.rows), experience)
      ensures store.rows.Keys == Toggled(old(store.rows.Keys), experience.id)
      ensures experiences == WithFavoriteFlag(old(experiences), experience.id, experience.id !in old(store.rows))
      ensures reloaded.Ok? ==> favorites == reloaded.value && InStep(favorites, store.rows.Keys)
      ensures reloaded.Err? ==> favorites == old(favorites)
      ensures userName == old(userName) && categories == old(categories)
      ensures InStep(old(experiences), old(store.rows.Keys)) ==> InStep(experiences, store.rows.Keys)
    {
      var isCurrentlyFavorite := store.IsFavorite(experience.id);
      if isCurrentlyFavorite {
        store.RemoveFavorite(experience);
      } else {
        store.AddFavorite(experience);
      }
      if InStep(old(experiences), old(store.rows.Keys)) {
        ToggleKeepsInStep(old(experiences), old(store.rows.Keys), experience.id, !isCurrentlyFavorite);
      }
      experiences := WithFavoriteFlag(experiences, experience.id, !isCurrentlyFavorite);
      LoadFavorites(reloaded);
    }

    /** `loadExperiencesFromApi`: one experience per fetched record, in order, flagged by the store. */
    method LoadExperiencesFromApi(apiExperiences: seq<ExperienceDto>)
      modifies this
      ensures experiences == MarkFavorites(apiExperiences, store.rows.Keys)
      ensures InStep(experiences, store.rows.Keys)
      ensures favorites == old(favorites) && userName == old(userName) && categories == old(categories)
    {
      experiences := MarkFavorites(apiExperiences, store.rows.Keys);
      MarkFavoritesInStep(apiExperiences, store.rows.Keys);
    }
  }
}
