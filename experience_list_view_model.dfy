/** The tourist's experience list and favourites. */
module ExperienceListViewModel {
  import opened Failures
  import opened Dtos
  import opened Domain
  import opened Favorites

  class ExperienceListViewModel {
    var experiences: seq<Experience>
    var favorites: seq<Experience>
    const store: FavoriteStore

    constructor (store: FavoriteStore)
      ensures experiences == [] && favorites == [] && this.store == store
    {
      experiences := [];
      favorites := [];
      this.store := store;
    }

    /**
     * `loadExperiences`, with what the experience endpoint returned: the
     * repository's `getExperiences` maps each record and flags it by the
     * store, so the list is in step with the store; a failure keeps the list.
     */
    method LoadExperiences(fetched: Result<seq<ExperienceDto>>)
      modifies this
      ensures fetched.Ok? ==> experiences == MarkFavorites(fetched.value, store.rows.Keys)
      ensures fetched.Ok? ==> InStep(experiences, store.rows.Keys)
      ensures fetched.Err? ==> experiences == old(experiences)
      ensures favorites == old(favorites)
    {
      if fetched.Ok? {
        experiences := MarkFavorites(fetched.value, store.rows.Keys);
        MarkFavoritesInStep(fetched.value, store.rows.Keys);
      }
    }

    /**
     * `loadFavorites`, with what `getFavorites` returned for the table: on
     * success the favourites are the table's rows, each flagged as a
     * favourite; a failure keeps the list.
     */
    method LoadFavorites(fetched: Result<seq<Experience>>)
      requires fetched.Ok? ==> ListsFavorites(fetched.value, store.rows)
      modifies this
      ensures fetched.Ok? ==> favorites == fetched.value && InStep(favorites, store.rows.Keys)
      ensures fetched.Err? ==> favorites == old(favorites)
      ensures experiences == old(experiences)
    {
      if fetched.Ok? {
        favorites := fetched.value;
        ListedFavoritesInStep(fetched.value, store.rows);
      }
    }

    /**
     * `toggleFavorite`, with what the favourites reload afterwards returns:
     * the store's membership of the id flips, and every listed experience
     * with that id takes the new membership as its flag.
     */
    method ToggleFavorite(experience: Experience, reloaded: Result<seq<Experience>>)
      requires reloaded.Ok? ==> ListsFavorites(reloaded.value, ToggledRows(store.rows, experience))
      modifies this, store
      ensures store.rows == ToggledRows(old(store.rows), experience)
      ensures store.rows.Keys == Toggled(old(store.rows.Keys), experience.id)
      ensures experiences == WithFavoriteFlag(old(experiences), experience.id, experience.id !in old(store.rows))
      ensures reloaded.Ok? ==> favorites == reloaded.value && InStep(favorites, store.rows.Keys)
      ensures reloaded.Err? ==> favorites == old(favorites)
      ensures InStep(old(experiences), old(store.rows.Keys)) ==> InStep(experiences, store.rows.Keys)
    {
      var isCurrentlyFavorite := store.IsFavorite(experience.id);
      if isCurrentlyFavorite {
        store.RemoveFavorite(experience);
      } else {
        store.AddFavorite(experience);
      }
      if InStep(old(experiences), old(store.rows.Keys)) {
        ToggleKeepsInStep(old(experiences), old(store.rows.Keys), experience.id, !isCurrentlyFavorite);
      }
      experiences := WithFavoriteFlag(experiences, experience.id, !isCurrentlyFavorite);
      LoadFavorites(reloaded);
    }

    /** `loadExperiencesFromApi`: one experience per fetched record, in order, flagged by the store. */
    method LoadExperiencesFromApi(apiExperiences: seq<ExperienceDto>)
      modifies this
      ensures experiences == MarkFavorites(apiExperiences, store.rows.Keys)
      ensures InStep(experiences, store.rows.Keys)
      ensures favorites == old(favorites)
    {
      experiences := MarkFavorites(apiExperiences, store.rows.Keys);
      MarkFavoritesInStep(apiExperiences, store.rows.Keys);
    }
  }
}
