/**
 * The filter form of src/components/LeadFilters.tsx: its field rules, the
 * "Campos Desejados" toggles and the submission handed to the generator.
 */
module LeadFilterForm {
  import opened Wrappers
  import opened FormRules
  import opened LeadTypes

  const InitialFields: seq<string> := ["email", "phone"]

  /** The keys the four toggle buttons use. */
  const FieldKeys: seq<string> := ["email", "phone", "website", "company"]

  /** `defaultValues` of the form. */
  function DefaultFilters(): (f: LeadFilters)
    ensures f.niche == "" && f.city == "" && f.country == "Brasil" && f.quantity == 100
    ensures f.ageRange == Some(AgeRange(25, 55)) && f.fields == Some(InitialFields)
  {
    LeadFilters("", "", "Brasil", 100, Some(AgeRange(25, 55)), Some(InitialFields))
  }

  /** `prev.filter(f => f !== field)`. */
  function Without(fields: seq<string>, field: string): (r: seq<string>)
    ensures field !in r
    ensures forall x :: x in r <==> x in fields && x != field
    ensures |r| <= |fields|
  {
    if fields == [] then []
    else (if fields[0] == field then [] else [fields[0]]) + Without(fields[1..], field)
  }

  /** The toggle: remove a selected field (every copy of it), append one not selected. */
  function Toggled(fields: seq<string>, field: string): (r: seq<string>)
    ensures field in fields ==> r == Without(fields, field)
    ensures field !in fields ==> r == fields + [field]
    ensures field in r <==> field !in fields
    ensures forall x :: x != field ==> (x in r <==> x in fields)
  {
    if field in fields then Without(fields, field) else fields + [field]
  }

  /** Removing a field that is not there changes nothing. */
  lemma {:induction false} WithoutAbsent(fields: seq<string>, field: string)
    requires field !in fields
    ensures Without(fields, field) == fields
    decreases |fields|
  {
    if fields != [] {
      WithoutAbsent(fields[1..], field);
      assert fields == [fields[0]] + fields[1..];
    }
  }

  /** Removal keeps the order of the other fields: it works piecewise on a concatenation. */
  lemma {:induction false} WithoutSplits(a: seq<string>, b: seq<string>, field: string)
    ensures Without(a + b, field) == Without(a, field) + Without(b, field)
    decreases |a|
  {
    if a == [] {
      assert a + b == b;
    } else {
      assert (a + b)[0] == a[0];
      assert (a + b)[1..] == a[1..] + b;
      WithoutSplits(a[1..], b, field);
      var head := if a[0] == field then [] else [a[0]];
      assert Without(a + b, field) == head + Without(a[1..] + b, field);
      assert Without(a, field) == head + Without(a[1..], field);
    }
  }

  predicate NoDuplicates(fields: seq<string>)
  {
    forall i, j :: 0 <= i < j < |fields| ==> fields[i] != fields[j]
  }

  /** Removal keeps a duplicate-free list duplicate-free. */
  lemma {:induction false} WithoutKeepsNoDuplicates(fields: seq<string>, field: string)
    requires NoDuplicates(fields)
    ensures NoDuplicates(Without(fields, field))
    decreases |fields|
  {
    if fields != [] {
      WithoutKeepsNoDuplicates(fields[1..], field);
      var rest := Without(fields[1..], field);
      assert fields[0] !in fields[1..];
      assert fields[0] !in rest;
    }
  }

  /** Toggling keeps a duplicate-free selection duplicate-free. */
  lemma ToggleKeepsNoDuplicates(fields: seq<string>, field: string)
    requires NoDuplicates(fields)
    ensures NoDuplicates(Toggled(fields, field))
  {
    if field in fields {
      WithoutKeepsNoDuplicates(fields, field);
    }
  }

  /** Toggling a field that is not selected twice gives the exact list back. */
  lemma ToggleAbsentTwice(fields: seq<string>, field: string)
    requires field !in fields
    ensures Toggled(Toggled(fields, field), field) == fields
  {
    WithoutSplits(fields, [field], field);
    WithoutAbsent(fields, field);
  }

  /**
   * Toggling a selected field twice keeps the same fields selected but moves
   * that one to the end.
   */
  lemma TogglePresentTwice(fields: seq<string>, field: string)
    requires field in fields
    ensures Toggled(Toggled(fields, field), field) == Without(fields, field) + [field]
    ensures forall x :: x in Toggled(Toggled(fields, field), field) <==> x in fields
  {
  }

  /** Toggling one of the four keys keeps a selection made of those keys. */
  lemma ToggleKeepsKeys(fields: seq<string>, field: string)
    requires forall i :: 0 <= i < |fields| ==> fields[i] in FieldKeys
    requires field in FieldKeys
    ensures forall i :: 0 <= i < |Toggled(fields, field)| ==> Toggled(fields, field)[i] in FieldKeys
  {
    var r := Toggled(fields, field);
    forall i | 0 <= i < |r| ensures r[i] in FieldKeys {
      assert r[i] in r;
      if r[i] != field {
        var j :| 0 <= j < |fields| && fields[j] == r[i];
      }
    }
  }

  /** The panel's selection state and the form's `fields` value. */
  class FieldSelector {
    var selectedFields: seq<string>
    var formFields: Option<seq<string>>

    /** The selection holds each of the four keys at most once, and nothing else. */
    predicate Valid()
      reads this
    {
      NoDuplicates(selectedFields) && forall i :: 0 <= i < |selectedFields| ==> selectedFields[i] in FieldKeys
    }

    constructor ()
      ensures selectedFields == InitialFields && formFields == Some(InitialFields)
      ensures Valid()
    {
      selectedFields := InitialFields;
      formFields := Some(InitialFields);
    }

    /**
     * `handleFieldToggle`. The form's `fields` receives the selection as it
     * was before this toggle: the state update has not happened yet.
     */
    method Toggle(field: string)
      requires Valid() && field in FieldKeys
      modifies this
      ensures selectedFields == Toggled(old(selectedFields), field)
      ensures formFields == Some(old(selectedFields))
      ensures Valid()
    {
      ToggleKeepsNoDuplicates(selectedFields, field);
      ToggleKeepsKeys(selectedFields, field);
      formFields := Some(selectedFields);
      selectedFields := Toggled(selectedFields, field);
    }
  }

  /** `onSubmit`: the form data with `fields` replaced by the current selection. */
  function Submitted(data: LeadFilters, selectedFields: seq<string>): (r: LeadFilters)
    ensures r.fields == Some(selectedFields)
    ensures r.niche == data.niche && r.city == data.city && r.country == data.country
    ensures r.quantity == data.quantity && r.ageRange == data.ageRange
  {
    data.(fields := Some(selectedFields))
  }

  /** The stale form value never reaches the generator. */
  lemma SubmitIgnoresStaleFields(data: LeadFilters, selectedFields: seq<string>, stale: seq<string>)
    ensures Submitted(data.(fields := Some(stale)), selectedFields) == Submitted(data, selectedFields)
  {
  }

  /** The quantity slider: required, then 10 to 10000. */
  function QuantityError(q: Option<int>): (r: Option<string>)
    ensures r.None? <==> q.Some? && 10 <= q.value <= 10000
    ensures q.None? ==> r == Some("Quantidade é obrigatória")
    ensures q.Some? && q.value < 10 ==> r == Some("Mínimo 10 leads")
    ensures q.Some? && q.value > 10000 ==> r == Some("Máximo 10.000 leads")
  {
    if q.None? then Some("Quantidade é obrigatória")
    else if q.value < 10 then Some("Mínimo 10 leads")
    else if q.value > 10000 then Some("Máximo 10.000 leads")
    else None
  }

  /** The messages of the failing fields, in page order; `quantity` is `None` when empty. */
  function Errors(niche: string, city: string, quantity: Option<int>): (msgs: seq<string>)
    ensures msgs == [] <==> niche != "" && city != "" && quantity.Some? && 10 <= quantity.value <= 10000
  {
    var rs := [RequiredError(niche, "Nicho é obrigatório"), RequiredError(city, "Cidade é obrigatória"),
               QuantityError(quantity)];
    assert rs[0] == RequiredError(niche, "Nicho é obrigatório");
    assert rs[1] == RequiredError(city, "Cidade é obrigatória") && rs[2] == QuantityError(quantity);
    Failures(rs)
  }

  /** The default form is rejected until a niche and a city are given. */
  lemma DefaultsNeedNicheAndCity()
    ensures Errors("", "", Some(100)) == ["Nicho é obrigatório", "Cidade é obrigatória"]
  {
    var rs := [RequiredError("", "Nicho é obrigatório"), RequiredError("", "Cidade é obrigatória"),
               QuantityError(Some(100))];
    assert Failures(rs[2..]) == [];
    assert Failures(rs[1..]) == ["Cidade é obrigatória"];
  }
}
