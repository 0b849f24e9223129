/**
 * The dynamic UPDATE statement of PUT /songs/:id. Every field of the body
 * that is truthy, taken in the fixed order name, artist, preview_url,
 * poster, contributes one `column = $n` assignment and one bound value;
 * the `id` of the route comes last, bound to the placeholder after them.
 */
module UpdateBuilder {
  import opened Wrappers
  import opened Numerals
  import opened Request
  import opened Store
  import opened Http

  /** The fields PUT may change, in the order their assignments are written. */
  const UPDATABLE: seq<Field> := [Name, Artist, PreviewUrl, Poster]

  predicate Distinct(fields: seq<Field>) {
    forall i, j :: 0 <= i < j < |fields| ==> fields[i] != fields[j]
  }

  /** Where `f` first occurs in `order` (|order| when it does not occur). */
  function Position(order: seq<Field>, f: Field): nat {
    if order == [] then 0 else if order[0] == f then 0 else 1 + Position(order[1..], f)
  }

  /** The fields of `order` that are truthy in `b`, in the order of `order`. */
  function Chosen(b: Body, order: seq<Field>): seq<Field> {
    if order == [] then []
    else (if Truthy(Get(b, order[0])) then [order[0]] else []) + Chosen(b, order[1..])
  }

  /** The assignment `column = $n`, as the template `name = $${index}` writes it. */
  function Assignment(f: Field, n: nat): string {
    ColumnName(f) + " = $" + Decimal(n)
  }

  /** Assignments for `fields`, numbering placeholders from `next` on. */
  function Assignments(fields: seq<Field>, next: nat): seq<string> {
    if fields == [] then [] else [Assignment(fields[0], next)] + Assignments(fields[1..], next + 1)
  }

  /** `parts.join(sep)`. */
  function Join(parts: seq<string>, sep: string): string {
    if parts == [] then ""
    else if |parts| == 1 then parts[0]
    else parts[0] + sep + Join(parts[1..], sep)
  }

  /** Joining one more part puts one separator before it. */
  lemma {:induction false} JoinSnoc(parts: seq<string>, p: string, sep: string)
    requires parts != []
    ensures Join(parts + [p], sep) == Join(parts, sep) + sep + p
  {
    if |parts| > 1 {
      assert (parts + [p])[1..] == parts[1..] + [p];
      JoinSnoc(parts[1..], p, sep);
    } else {
      assert parts + [p] == [parts[0], p];
    }
  }

  /** The statement text for the given assignments; `id` takes the next placeholder. */
  function UpdateText(assignments: seq<string>): string {
    "UPDATE songs SET " + Join(assignments, ", ") + " WHERE id = $" + Decimal(|assignments| + 1)
      + " RETURNING *"
  }

  /** What PUT /songs/:id does before asking the store. */
  function UpdatePlan(id: string, b: Body): (plan: Plan)
    ensures plan.Reject? ==> plan.response == Response(BAD_REQUEST, ErrorJson(NO_FIELDS_TO_UPDATE))
    ensures plan.Issue? ==>
      && |plan.query.params| == |Chosen(b, UPDATABLE)| + 1
      && plan.query.params[|Chosen(b, UPDATABLE)|] == id
  {
    var fields := Chosen(b, UPDATABLE);
    if fields == [] then Reject(Response(BAD_REQUEST, ErrorJson(NO_FIELDS_TO_UPDATE)))
    else Issue(Query(UpdateText(Assignments(fields, 1)), ValuesOf(b, fields) + [id]))
  }

  // ---------------------------------------------------------------------------
  // Properties of the specification.

  lemma {:induction false} ChosenMembers(b: Body, order: seq<Field>)
    ensures |Chosen(b, order)| <= |order|
    ensures forall f :: f in Chosen(b, order) <==> f in order && Truthy(Get(b, f))
  {
    if order != [] {
      ChosenMembers(b, order[1..]);
      assert order == [order[0]] + order[1..];
    }
  }

  /** Chosen fields keep the relative order they have in `order`. */
  lemma {:induction false} ChosenInOrder(b: Body, order: seq<Field>)
    requires Distinct(order)
    ensures var c := Chosen(b, order);
      forall i, j :: 0 <= i < j < |c| ==> Position(order, c[i]) < Position(order, c[j])
  {
    if order != [] {
      var rest := order[1..];
      ChosenInOrder(b, rest);
      ChosenMembers(b, rest);
      forall f | f in Chosen(b, rest)
        ensures Position(order, f) == 1 + Position(rest, f) && Position(order, f) > 0
      {
        assert f != order[0];
      }
    }
  }

  /** Examining one more field appends it exactly when it is truthy. */
  lemma {:induction false} ChosenSnoc(b: Body, order: seq<Field>, f: Field)
    ensures Chosen(b, order + [f]) == Chosen(b, order) + (if Truthy(Get(b, f)) then [f] else [])
  {
    if order == [] {
      assert [] + [f] == [f];
    } else {
      assert (order + [f])[1..] == order[1..] + [f];
      ChosenSnoc(b, order[1..], f);
    }
  }

  /** The field `Album` never influences which fields are chosen from an order without it. */
  lemma {:induction false} ChosenIgnoresAlbum(b: Body, album: Option<string>, order: seq<Field>)
    requires Album !in order
    ensures Chosen(b.(album := album), order) == Chosen(b, order)
  {
    if order != [] {
      ChosenIgnoresAlbum(b, album, order[1..]);
    }
  }

  /** The numbering of assignments is contiguous from `next`. */
  lemma {:induction false} AssignmentsNumbered(fields: seq<Field>, next: nat)
    ensures |Assignments(fields, next)| == |fields|
    ensures forall i :: 0 <= i < |fields| ==>
      Assignments(fields, next)[i] == ColumnName(fields[i]) + " = $" + Decimal(next + i)
  {
    if fields != [] {
      AssignmentsNumbered(fields[1..], next + 1);
    }
  }

  lemma {:induction false} AssignmentsSnoc(fields: seq<Field>, f: Field, next: nat)
    ensures Assignments(fields + [f], next) == Assignments(fields, next) + [Assignment(f, next + |fields|)]
  {
    if fields == [] {
      assert [] + [f] == [f];
    } else {
      assert (fields + [f])[1..] == fields[1..] + [f];
      AssignmentsSnoc(fields[1..], f, next + 1);
    }
  }

  // ---------------------------------------------------------------------------
  // Properties of the planned statement.

  /** PUT answers 400 without a statement exactly when no updatable field is truthy. */
  lemma UpdateRejectedIffNothingToSet(id: string, b: Body)
    ensures UpdatePlan(id, b).Reject? <==> forall f :: f in UPDATABLE ==> !Truthy(Get(b, f))
    ensures UpdatePlan(id, b).Reject? ==>
      UpdatePlan(id, b).response == Response(BAD_REQUEST, ErrorJson(NO_FIELDS_TO_UPDATE))
  {
    var fields := Chosen(b, UPDATABLE);
    ChosenMembers(b, UPDATABLE);
    if fields != [] {
      assert fields[0] in fields;
    }
  }

  /**
   * The statement assigns exactly the truthy updatable fields, each once, in
   * the order name, artist, preview_url, poster.
   */
  lemma UpdateAssignsTruthyFieldsInOrder(id: string, b: Body)
    requires UpdatePlan(id, b).Issue?
    ensures var fields := Chosen(b, UPDATABLE);
      && 0 < |fields| <= |UPDATABLE|
      && (forall f :: f in fields <==> f in UPDATABLE && Truthy(Get(b, f)))
      && (forall i, j :: 0 <= i < j < |fields| ==> Position(UPDATABLE, fields[i]) < Position(UPDATABLE, fields[j]))
  {
    ChosenMembers(b, UPDATABLE);
    ChosenInOrder(b, UPDATABLE);
  }

  /**
   * With k assignments, the i-th (from 1) uses placeholder `$i`, the WHERE
   * clause uses `$(k+1)`, and the parameter list holds the k field values
   * in step with the assignments, followed by `id`.
   */
  lemma UpdatePlaceholdersContiguous(id: string, b: Body)
    requires UpdatePlan(id, b).Issue?
    ensures var fields := Chosen(b, UPDATABLE);
      var k := |fields|;
      var q := UpdatePlan(id, b).query;
      var assignments := Assignments(fields, 1);
      && |assignments| == k
      && (forall i :: 0 <= i < k ==> assignments[i] == ColumnName(fields[i]) + " = $" + Decimal(i + 1))
      && q.text == "UPDATE songs SET " + Join(assignments, ", ") + " WHERE id = $" + Decimal(k + 1)
        + " RETURNING *"
      && |q.params| == k + 1
      && q.params[k] == id
      && (forall j :: 0 <= j < k ==> Get(b, fields[j]) == Some(q.params[j]))
  {
    var fields := Chosen(b, UPDATABLE);
    AssignmentsNumbered(fields, 1);
    ChosenMembers(b, UPDATABLE);
    forall j | 0 <= j < |fields|
      ensures Get(b, fields[j]) == Some(UpdatePlan(id, b).query.params[j])
    {
      assert fields[j] in fields;
    }
  }

  /** Different counter values give different placeholder texts `$n`. */
  lemma UpdatePlaceholdersDistinct(i: nat, j: nat)
    requires i != j
    ensures "$" + Decimal(i) != "$" + Decimal(j)
  {
    DecimalInjective(i, j);
    assert ("$" + Decimal(i))[1..] == Decimal(i);
    assert ("$" + Decimal(j))[1..] == Decimal(j);
  }

  /** Whatever the body holds for `album`, the statement and its parameters are the same. */
  lemma UpdateNeverSetsAlbum(id: string, b: Body, album: Option<string>)
    ensures Album !in Chosen(b, UPDATABLE)
    ensures UpdatePlan(id, b.(album := album)) == UpdatePlan(id, b)
  {
    var fields := Chosen(b, UPDATABLE);
    ChosenMembers(b, UPDATABLE);
    ChosenIgnoresAlbum(b, album, UPDATABLE);
    assert ValuesOf(b.(album := album), fields) == ValuesOf(b, fields);
  }

  /** `{"name": "X"}` sets the name alone and binds the id to `$2`. */
  lemma UpdateNameOnly(id: string)
    ensures UpdatePlan(id, Body(Some("X"), None, None, None, None))
      == Issue(Query("UPDATE songs SET " + "name = $1" + " WHERE id = $" + "2" + " RETURNING *", ["X", id]))
  {
    var b := Body(Some("X"), None, None, None, None);
    assert Chosen(b, UPDATABLE) == [Name];
    assert Decimal(1) == "1";
    assert Decimal(2) == "2";
    var set1 := Assignment(Name, 1);
    assert set1 == "name = $1";
    assert Assignments([Name], 1) == [set1];
    assert Join([set1], ", ") == set1;
    assert ValuesOf(b, [Name]) == ["X"];
  }

  // ---------------------------------------------------------------------------
  // The builder as the handler runs it: two growing lists and a counter.

  /** The state of the builder once the fields of `seen` have been examined. */
  ghost predicate Built(b: Body, seen: seq<Field>, fields: seq<string>, values: seq<string>, index: nat) {
    var chosen := Chosen(b, seen);
    fields == Assignments(chosen, 1) && values == ValuesOf(b, chosen) && index == |chosen| + 1
  }

  lemma Step(b: Body, seen: seq<Field>, f: Field, fields: seq<string>, values: seq<string>, index: nat)
    requires Built(b, seen, fields, values, index)
    ensures Truthy(Get(b, f)) ==>
      Built(b, seen + [f], fields + [Assignment(f, index)], values + [Text(b, f)], index + 1)
    ensures !Truthy(Get(b, f)) ==> Built(b, seen + [f], fields, values, index)
  {
    var chosen := Chosen(b, seen);
    ChosenSnoc(b, seen, f);
    AssignmentsSnoc(chosen, f, 1);
    if Truthy(Get(b, f)) {
      assert ValuesOf(b, chosen + [f]) == ValuesOf(b, chosen) + [Text(b, f)];
    } else {
      assert chosen + [] == chosen;
    }
  }

  /** Once every updatable field has been examined, the lists give the planned statement. */
  lemma Finish(id: string, b: Body, fields: seq<string>, values: seq<string>, index: nat)
    requires Built(b, UPDATABLE, fields, values, index)
    ensures UpdatePlan(id, b) ==
      if |fields| == 0 then Reject(Response(BAD_REQUEST, ErrorJson(NO_FIELDS_TO_UPDATE)))
      else Issue(Query("UPDATE songs SET " + Join(fields, ", ") + " WHERE id = $" + Decimal(index)
        + " RETURNING *", values + [id]))
  {
    AssignmentsNumbered(Chosen(b, UPDATABLE), 1);
  }

  /**
   * Pushes an assignment and a value for each truthy field in turn, rejects
   * the request when nothing was pushed, and otherwise writes the statement
   * and pushes `id` last.
   */
  method BuildUpdate(id: string, body: Body) returns (plan: Plan)
    ensures plan == UpdatePlan(id, body)
  {
    var fieldsToUpdate: seq<string> := [];
    var values: seq<string> := [];
    var index: nat := 1;
    ghost var seen: seq<Field> := [];  // the fields examined so far
    assert Built(body, seen, fieldsToUpdate, values, index);

    Step(body, seen, Name, fieldsToUpdate, values, index);
    if Truthy(body.name) {
      fieldsToUpdate := fieldsToUpdate + [Assignment(Name, index)];
      index := index + 1;
      values := values + [body.name.value];
    }
    seen := seen + [Name];

    Step(body, seen, Artist, fieldsToUpdate, values, index);
    if Truthy(body.artist) {
      fieldsToUpdate := fieldsToUpdate + [Assignment(Artist, index)];
      index := index + 1;
      values := values + [body.artist.value];
    }
    seen := seen + [Artist];

    Step(body, seen, PreviewUrl, fieldsToUpdate, values, index);
    if Truthy(body.previewUrl) {
      fieldsToUpdate := fieldsToUpdate + [Assignment(PreviewUrl, index)];
      index := index + 1;
      values := values + [body.previewUrl.value];
    }
    seen := seen + [PreviewUrl];

    Step(body, seen, Poster, fieldsToUpdate, values, index);
    if Truthy(body.poster) {
      fieldsToUpdate := fieldsToUpdate + [Assignment(Poster, index)];
      index := index + 1;
      values := values + [body.poster.value];
    }
    seen := seen + [Poster];

    assert seen == UPDATABLE;
    Finish(id, body, fieldsToUpdate, values, index);
    if |fieldsToUpdate| == 0 {
      return Reject(Response(BAD_REQUEST, ErrorJson(NO_FIELDS_TO_UPDATE)));
    }
    var query := "UPDATE songs SET " + Join(fieldsToUpdate, ", ") + " WHERE id = $" + Decimal(index)
      + " RETURNING *";
    values := values + [id];
    plan := Issue(Query(query, values));
  }
}
