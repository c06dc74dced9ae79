/**
 * The favorite-location routes over an in-memory collection: add-or-update
 * keyed on (user, label), owner-scoped delete, and lookup by label.
 *
 * The collection maps each document id to its record. The unique index on
 * (userId, label) becomes part of the store's invariant, which every
 * operation keeps.
 */
module FavoritesRoutes {
  import opened Wrappers
  import opened Text
  import opened FavoriteLocation

  /** `getDefaultEmoji`: the emoji a new favorite gets when the request has
      none. */
  function DefaultEmoji(labelName: string): (e: string)
    ensures e != []
    ensures labelName == "home" ==> e == "\U{1F3E0}"
    ensures labelName == "office" ==> e == "\U{1F3E2}"
    ensures labelName == "college" ==> e == "\U{1F393}"
    ensures labelName != "home" && labelName != "office" && labelName != "college" ==> e == Pin
  {
    if labelName == "home" then "\U{1F3E0}"
    else if labelName == "office" then "\U{1F3E2}"
    else if labelName == "college" then "\U{1F393}"
    else Pin
  }

  /** The three named labels get three different emoji, none of them the
      pushpin that `custom` and unknown labels share. */
  lemma DefaultEmojiDistinct()
    ensures |{DefaultEmoji("home"), DefaultEmoji("office"), DefaultEmoji("college"), DefaultEmoji("custom")}| == 4
  {
  }

  /** JavaScript truthiness of an optional string: present and non-empty. */
  predicate Truthy(s: Option<string>) {
    s.Some? && s.value != []
  }

  /** JavaScript truthiness of an optional number: present and not zero. */
  predicate TruthyNumber(x: Option<real>) {
    x.Some? && x.value != 0.0
  }

  /** The body of `POST /add`. */
  datatype AddRequest = AddRequest(
    labelName: Option<string>,
    customLabel: Option<string>,
    address: Option<string>,
    latitude: Option<real>,
    longitude: Option<real>,
    emoji: Option<string>)

  /** What passes the route's own checks, before the schema's validators. */
  predicate Acceptable(req: AddRequest) {
    && Truthy(req.labelName) && Truthy(req.address)
    && ToLower(req.labelName.value) in Labels
    && (ToLower(req.labelName.value) == "custom" ==> Truthy(req.customLabel))
  }

  /** The route's checks in order; the message of the first that fails. */
  function CheckRequest(req: AddRequest): (r: Option<string>)
    ensures r.None? <==> Acceptable(req)
    ensures !Truthy(req.labelName) || !Truthy(req.address) ==> r == Some("Label and address are required")
  {
    if !Truthy(req.labelName) || !Truthy(req.address) then
      Some("Label and address are required")
    else if ToLower(req.labelName.value) !in Labels then
      Some("Invalid label. Must be one of: home, office, college, custom")
    else if ToLower(req.labelName.value) == "custom" && !Truthy(req.customLabel) then
      Some("Custom label text is required for custom locations")
    else None
  }

  /** The document a new favorite is created as. */
  function NewFavorite(id: nat, userId: string, req: AddRequest): (f: Favorite)
    requires Acceptable(req)
    ensures f.id == id && f.userId == userId && f.labelName == ToLower(req.labelName.value)
    ensures f.labelName == "custom" ==> f.customLabel == Some(Trim(req.customLabel.value, JavaScript))
    ensures f.labelName != "custom" ==> f.customLabel.None?
    ensures f.address == Trim(req.address.value, JavaScript)
    ensures f.latitude == req.latitude && f.longitude == req.longitude
    ensures f.emoji == if Truthy(req.emoji) then req.emoji.value else DefaultEmoji(f.labelName)
    ensures f.emoji != []
  {
    var lower := ToLower(req.labelName.value);
    Favorite(
      id, userId, lower,
      if lower == "custom" then Some(Trim(req.customLabel.value, JavaScript)) else None,
      Trim(req.address.value, JavaScript),
      req.latitude, req.longitude,
      if Truthy(req.emoji) then req.emoji.value else DefaultEmoji(lower))
  }

  /** An existing favorite after the update branch: a new trimmed address;
      coordinates and emoji replaced only by truthy values; the custom text
      replaced only for `custom`. */
  function UpdatedFavorite(e: Favorite, req: AddRequest): (f: Favorite)
    requires Acceptable(req)
    ensures f.id == e.id && f.userId == e.userId && f.labelName == e.labelName
    ensures f.address == Trim(req.address.value, JavaScript)
    ensures f.latitude == if TruthyNumber(req.latitude) then req.latitude else e.latitude
    ensures f.longitude == if TruthyNumber(req.longitude) then req.longitude else e.longitude
    ensures f.emoji == if Truthy(req.emoji) then req.emoji.value else e.emoji
    ensures f.customLabel ==
      if ToLower(req.labelName.value) == "custom" then Some(Trim(req.customLabel.value, JavaScript)) else e.customLabel
  {
    e.(address := Trim(req.address.value, JavaScript),
       latitude := if TruthyNumber(req.latitude) then req.latitude else e.latitude,
       longitude := if TruthyNumber(req.longitude) then req.longitude else e.longitude,
       emoji := if Truthy(req.emoji) then req.emoji.value else e.emoji,
       customLabel := if ToLower(req.labelName.value) == "custom" then Some(Trim(req.customLabel.value, JavaScript)) else e.customLabel)
  }

  /** At most one record per (user, label): the unique compound index. */
  ghost predicate UniqueLabels(m: map<nat, Favorite>) {
    forall i, j :: i in m && j in m && m[i].userId == m[j].userId && m[i].labelName == m[j].labelName ==> i == j
  }

  /** Whether some record of `userId` has label `labelName`. */
  predicate HasLabel(m: map<nat, Favorite>, userId: string, labelName: string) {
    exists id :: id in m && m[id].userId == userId && m[id].labelName == labelName
  }

  /** Writing a record keeps the index unique when it either replaces the
      record that already holds its (user, label) or takes a (user, label)
      no record holds. */
  lemma WriteKeepsUnique(m: map<nat, Favorite>, id: nat, f: Favorite)
    requires UniqueLabels(m)
    requires (id in m && m[id].userId == f.userId && m[id].labelName == f.labelName)
          || (id !in m && !HasLabel(m, f.userId, f.labelName))
    ensures UniqueLabels(m[id := f])
  {
    var m' := m[id := f];
    forall i, j | i in m' && j in m' && m'[i].userId == m'[j].userId && m'[i].labelName == m'[j].labelName
      ensures i == j
    {
      assert i != id ==> m'[i] == m[i];
      assert j != id ==> m'[j] == m[j];
      assert id !in m ==> (i != id ==> m[i].userId != f.userId || m[i].labelName != f.labelName);
      assert id !in m ==> (j != id ==> m[j].userId != f.userId || m[j].labelName != f.labelName);
    }
  }

  /** Removing records keeps the index unique. */
  lemma RemoveKeepsUnique(m: map<nat, Favorite>, id: nat)
    requires UniqueLabels(m)
    ensures UniqueLabels(m - {id})
  {
  }

  /** How `POST /` answers: 201 with the new record, 200 with the updated
      one, or 400 with the validation message. */
  datatype AddOutcome =
    | Created(favorite: Favorite)
    | Updated(favorite: Favorite)
    | Rejected(error: string)

  datatype DeleteOutcome = Deleted | NotFound(error: string)

  class FavoriteStore {
    /** The collection, by document id. */
    var favorites: map<nat, Favorite>
    /** The id the next created document gets. */
    var nextId: nat

    /** Every stored document is filed under its own id, below `nextId`,
        passed the schema's validators, and holds a (user, label) pair no
        other document holds. */
    ghost predicate Valid()
      reads this
    {
      && (forall id :: id in favorites ==> favorites[id].id == id && id < nextId && Conforms(favorites[id]))
      && UniqueLabels(favorites)
    }

    /** `f` is the stored document of `userId` with label `labelName`. */
    ghost predicate Stored(f: Favorite, userId: string, labelName: string)
      reads this
    {
      f.id in favorites && favorites[f.id] == f && f.userId == userId && f.labelName == labelName
    }

    constructor ()
      ensures Valid() && favorites == map[] && nextId == 0
    {
      favorites := map[];
      nextId := 0;
    }

    /** `findOne({ userId, label })`. */
    method FindByLabel(userId: string, labelName: string) returns (found: Option<nat>)
      ensures found.Some? ==>
        (found.value in favorites && favorites[found.value].userId == userId && favorites[found.value].labelName == labelName)
      ensures found.None? <==> !HasLabel(favorites, userId, labelName)
    {
      if HasLabel(favorites, userId, labelName) {
        var id :| id in favorites && favorites[id].userId == userId && favorites[id].labelName == labelName;
        found := Some(id);
      } else {
        found := None;
      }
    }

    /** `GET /label/:label`: the requesting user's favorite with that label,
        matched after lower-casing the label. */
    method GetByLabel(userId: string, labelName: string) returns (result: Option<Favorite>)
      ensures result.Some? ==>
        (result.value in favorites.Values && result.value.userId == userId && result.value.labelName == ToLower(labelName))
      ensures result.None? <==> !HasLabel(favorites, userId, ToLower(labelName))
    {
      var found := FindByLabel(userId, ToLower(labelName));
      if found.Some? {
        result := Some(favorites[found.value]);
      } else {
        result := None;
      }
    }

    /** The update branch's edits to the loaded document, field by
        field. */
    static method ApplyUpdate(e: Favorite, req: AddRequest) returns (existing: Favorite)
      requires Acceptable(req)
      ensures existing == UpdatedFavorite(e, req)
    {
      existing := e;
      existing := existing.(address := Trim(req.address.value, JavaScript));
      existing := existing.(latitude := if TruthyNumber(req.latitude) then req.latitude else existing.latitude);
      existing := existing.(longitude := if TruthyNumber(req.longitude) then req.longitude else existing.longitude);
      existing := existing.(emoji := if Truthy(req.emoji) then req.emoji.value else existing.emoji);
      if ToLower(req.labelName.value) == "custom" {
        existing := existing.(customLabel := Some(Trim(req.customLabel.value, JavaScript)));
      }
    }

    /** The update branch of `POST /add`: rewrite the favorite filed under
        `id`, or leave the store alone when the schema rejects the result. */
    method UpdateExisting(id: nat, req: AddRequest) returns (out: AddOutcome)
      requires Valid() && Acceptable(req) && id in favorites
      requires favorites[id].labelName == ToLower(req.labelName.value)
      modifies this
      ensures Valid() && nextId == old(nextId)
      ensures !out.Rejected? ==> Stored(out.favorite, old(favorites)[id].userId, old(favorites)[id].labelName)
      ensures var u := UpdatedFavorite(old(favorites)[id], req);
        if ValidationErrors(u) == [] then out == Updated(u) && favorites == old(favorites)[id := u]
        else out == Rejected(Join(ValidationErrors(u), ", ")) && favorites == old(favorites)
    {
      var existing := ApplyUpdate(favorites[id], req);
      var errors := ValidationErrors(existing);
      if errors != [] {
        return Rejected(Join(errors, ", "));
      }
      WriteKeepsUnique(favorites, id, existing);
      favorites := favorites[id := existing];
      out := Updated(existing);
    }

    /** The create branch of `POST /add`: file a new favorite under the
        next id, unless the schema rejects it. */
    method CreateNew(userId: string, req: AddRequest) returns (out: AddOutcome)
      requires Valid() && Acceptable(req)
      requires !HasLabel(favorites, userId, ToLower(req.labelName.value))
      modifies this
      ensures Valid()
      ensures !out.Rejected? ==> Stored(out.favorite, userId, ToLower(req.labelName.value))
      ensures var n := NewFavorite(old(nextId), userId, req);
        if ValidationErrors(n) == [] then
          out == Created(n) && favorites == old(favorites)[old(nextId) := n] && nextId == old(nextId) + 1
        else
          out == Rejected(Join(ValidationErrors(n), ", ")) && favorites == old(favorites) && nextId == old(nextId)
    {
      var favorite := NewFavorite(nextId, userId, req);
      var errors := ValidationErrors(favorite);
      if errors != [] {
        return Rejected(Join(errors, ", "));
      }
      assert nextId !in favorites;
      WriteKeepsUnique(favorites, nextId, favorite);
      favorites := favorites[nextId := favorite];
      nextId := nextId + 1;
      out := Created(favorite);
    }

    /** `POST /add`: reject what fails the route's checks; otherwise update
        the user's favorite with that label if there is one, else create
        one. */
    method Add(userId: string, req: AddRequest) returns (out: AddOutcome)
      requires Valid()
      modifies this
      ensures Valid()
      ensures out.Rejected? ==> favorites == old(favorites) && nextId == old(nextId)
      ensures !out.Rejected? ==> Acceptable(req) && Stored(out.favorite, userId, ToLower(req.labelName.value))
      ensures !Acceptable(req) ==>
        out == Rejected(CheckRequest(req).value) && favorites == old(favorites) && nextId == old(nextId)
      ensures Acceptable(req) && HasLabel(old(favorites), userId, ToLower(req.labelName.value)) ==>
        exists id :: id in old(favorites) && old(favorites)[id].userId == userId
          && old(favorites)[id].labelName == ToLower(req.labelName.value)
          && nextId == old(nextId)
          && var u := UpdatedFavorite(old(favorites)[id], req);
             if ValidationErrors(u) == [] then out == Updated(u) && favorites == old(favorites)[id := u]
             else out == Rejected(Join(ValidationErrors(u), ", ")) && favorites == old(favorites)
      ensures Acceptable(req) && !HasLabel(old(favorites), userId, ToLower(req.labelName.value)) ==>
        var n := NewFavorite(old(nextId), userId, req);
        if ValidationErrors(n) == [] then
          out == Created(n) && favorites == old(favorites)[old(nextId) := n] && nextId == old(nextId) + 1
        else
          out == Rejected(Join(ValidationErrors(n), ", ")) && favorites == old(favorites) && nextId == old(nextId)
    {
      var check := CheckRequest(req);
      if check.Some? {
        return Rejected(check.value);
      }
      var existingId := FindByLabel(userId, ToLower(req.labelName.value));
      if existingId.Some? {
        out := UpdateExisting(existingId.value, req);
      } else {
        out := CreateNew(userId, req);
      }
    }

    /** `DELETE /:id`: removes the document only when it belongs to the
        requesting user. */
    method Delete(userId: string, id: nat) returns (out: DeleteOutcome)
      requires Valid()
      modifies this
      ensures Valid() && nextId == old(nextId)
      ensures id in old(favorites) && old(favorites)[id].userId == userId ==>
        out == Deleted && favorites == old(favorites) - {id}
      ensures !(id in old(favorites) && old(favorites)[id].userId == userId) ==>
        out == NotFound("Favorite location not found") && favorites == old(favorites)
    {
      if id in favorites && favorites[id].userId == userId {
        RemoveKeepsUnique(favorites, id);
        favorites := favorites - {id};
        out := Deleted;
      } else {
        out := NotFound("Favorite location not found");
      }
    }
  }
}
