/**
 * The favourites table as the view models see it: its rows by primary key,
 * and the list updates that keep each experience's `isFavorite` flag in
 * step with the ids it holds.
 */
module Favorites {
  import opened Dtos
  import opened Domain
  import ExperienceMapper

  /** The store after toggling `id`: removed when it was a favourite, added otherwise. */
  function Toggled(ids: set<int>, id: int): (r: set<int>)
    ensures id in r <==> id !in ids
    ensures r - {id} == ids - {id}
  {
    if id in ids then ids - {id} else ids + {id}
  }

  /** Toggling twice restores the store. */
  lemma ToggledTwice(ids: set<int>, id: int)
    ensures Toggled(Toggled(ids, id), id) == ids
  {
  }

  /** Every experience in the list with id `id` gets the flag `flag`; the others stay as they were. */
  function WithFavoriteFlag(experiences: seq<Experience>, id: int, flag: bool): (r: seq<Experience>)
    ensures |r| == |experiences|
    ensures forall i :: 0 <= i < |r| && experiences[i].id == id ==> r[i] == experiences[i].(isFavorite := flag)
    ensures forall i :: 0 <= i < |r| && experiences[i].id != id ==> r[i] == experiences[i]
  {
    seq(|experiences|, i requires 0 <= i < |experiences| =>
      if experiences[i].id == id then experiences[i].(isFavorite := flag) else experiences[i])
  }

  /** The fetched experiences, each flagged by whether the store holds its id. */
  function MarkFavorites(dtos: seq<ExperienceDto>, ids: set<int>): (r: seq<Experience>)
    ensures |r| == |dtos|
    ensures forall i :: 0 <= i < |r| ==> r[i] == ExperienceMapper.ToDomain(dtos[i]).(isFavorite := dtos[i].id in ids)
  {
    seq(|dtos|, i requires 0 <= i < |dtos| => ExperienceMapper.ToDomain(dtos[i]).(isFavorite := dtos[i].id in ids))
  }

  /** Every experience in the list is flagged exactly when the store holds its id. */
  predicate InStep(experiences: seq<Experience>, ids: set<int>) {
    forall i :: 0 <= i < |experiences| ==> experiences[i].isFavorite == (experiences[i].id in ids)
  }

  /** A freshly marked list is in step with the store. */
  lemma MarkFavoritesInStep(dtos: seq<ExperienceDto>, ids: set<int>)
    ensures InStep(MarkFavorites(dtos, ids), ids)
  {
    var r := MarkFavorites(dtos, ids);
    forall i | 0 <= i < |r|
      ensures r[i].isFavorite == (r[i].id in ids)
    {
      assert r[i].id == dtos[i].id;
    }
  }

  /** Toggling an id in the store and flagging the list with its new membership keeps the list in step. */
  lemma ToggleKeepsInStep(experiences: seq<Experience>, ids: set<int>, id: int, flag: bool)
    requires InStep(experiences, ids)
    requires flag == (id !in ids)
    ensures InStep(WithFavoriteFlag(experiences, id, flag), Toggled(ids, id))
  {
    var r := WithFavoriteFlag(experiences, id, flag);
    forall i | 0 <= i < |r| && experiences[i].id != id
      ensures r[i].isFavorite == (r[i].id in Toggled(ids, id))
    {
      assert experiences[i].id in Toggled(ids, id) - {id} <==> experiences[i].id in ids - {id};
    }
  }

  /** The table after toggling `e`: its row deleted when stored, otherwise inserted. */
  function ToggledRows(rows: map<int, FavoriteExperienceEntity>, e: Experience): (r: map<int, FavoriteExperienceEntity>)
    ensures r.Keys == Toggled(rows.Keys, e.id)
    ensures e.id !in rows ==> r[e.id] == ExperienceMapper.ToEntity(e)
    ensures forall k :: k in rows && k != e.id ==> k in r && r[k] == rows[k]
  {
    if e.id in rows then rows - {e.id} else rows[e.id := ExperienceMapper.ToEntity(e)]
  }

  /**
   * What `getFavorites` returns for the table `rows`: one experience per
   * row, each flagged as a favourite and agreeing with its row on the
   * table's columns.
   */
  predicate ListsFavorites(list: seq<Experience>, rows: map<int, FavoriteExperienceEntity>) {
    && |list| == |rows|
    && (set e | e in list :: e.id) == rows.Keys
    && forall e :: e in list ==> e.isFavorite && e.id in rows && ExperienceMapper.ToEntity(e) == rows[e.id]
  }

  /** A reloaded favourites list is in step with the table: every element is flagged and stored. */
  lemma ListedFavoritesInStep(list: seq<Experience>, rows: map<int, FavoriteExperienceEntity>)
    requires ListsFavorites(list, rows)
    ensures InStep(list, rows.Keys)
    ensures forall i :: 0 <= i < |list| ==> list[i].isFavorite
  {
    forall i | 0 <= i < |list| ensures list[i].isFavorite && list[i].id in rows {
      assert list[i] in list;
    }
  }

  /** The favourites table: its rows by primary key. */
  class FavoriteStore {
    var rows: map<int, FavoriteExperienceEntity>

    constructor (rows: map<int, FavoriteExperienceEntity>)
      ensures this.rows == rows
    {
      this.rows := rows;
    }

    /** `isFavorite(id)`: `getFavoriteById(id) != null`. */
    function IsFavorite(id: int): (r: bool)
      reads this
      ensures r <==> id in rows
    {
      id in rows
    }

    /** `addFavorite`: the experience's row is inserted, replacing any row with the same id. */
    method AddFavorite(experience: Experience)
      modifies this
      ensures rows == old(rows)[experience.id := ExperienceMapper.ToEntity(experience)]
    {
      rows := rows[experience.id := ExperienceMapper.ToEntity(experience)];
    }

    /** `removeFavorite`: deleting goes by the row's primary key. */
    method RemoveFavorite(experience: Experience)
      modifies this
      ensures rows == old(rows) - {experience.id}
    {
      rows := rows - {experience.id};
    }
  }
}
