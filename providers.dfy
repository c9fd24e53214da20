/** The provider form, used both to add a provider and to edit one. Its
    state is a loosely typed record (`formData`) updated one field at a
    time; validation requires name, speciality, city, address and category
    and a positive hourly price; the service receives every field that is
    neither `undefined` nor `null`, plus the chosen avatar file. */
module Providers {
  import opened Wrappers
  import opened Lists
  import opened Requests

  /** A JavaScript value as the form holds it. */
  datatype Value =
    | Undefined
    | Null
    | Bool(b: bool)
    | Num(n: int)
    | Str(s: string)
    | Arr(items: seq<Value>)
    | Obj(fields: seq<(string, Value)>)

  /** An object's own properties, in insertion order. */
  type Entries = seq<(string, Value)>

  /** One part of the multipart body: a form field or the avatar file. */
  datatype Part = Field(value: Value) | File(name: string)

  type ProviderRequest = Request<seq<(string, Part)>>

  const Required: string := "Required"
  const InvalidPrice: string := "Invalid price"
  const ProvidersPage: string := "/dashboard/providers"

  /** The empty form. */
  const InitialForm: Entries := [
    ("name", Str("")), ("speciality", Str("")), ("city", Str("")), ("address", Str("")),
    ("hourlyPrice", Num(0)), ("categoryId", Str("")), ("bio", Str("")),
    ("weeklyAvailability", Arr([]))
  ]

  predicate Truthy(v: Value) {
    match v
    case Undefined => false
    case Null => false
    case Bool(b) => b
    case Num(n) => n != 0
    case Str(s) => s != ""
    case Arr(_) => true
    case Obj(_) => true
  }

  /* ---------------- the record ---------------- */

  predicate UniqueKeys(e: Entries) {
    forall i, j :: 0 <= i < j < |e| ==> e[i].0 != e[j].0
  }

  predicate HasKey(e: Entries, k: string) {
    exists i :: 0 <= i < |e| && e[i].0 == k
  }

  function Keys(e: Entries): seq<string> {
    Map(e, (p: (string, Value)) => p.0)
  }

  /** `obj[k]`: the value stored under `k`, `undefined` when there is none. */
  function Lookup(e: Entries, k: string): Value {
    if e == [] then Undefined else if e[0].0 == k then e[0].1 else Lookup(e[1..], k)
  }

  /** `{ ...obj, [k]: v }`: an existing property keeps its place and takes
      the new value; a new one goes last. */
  function Assign(e: Entries, k: string, v: Value): (r: Entries)
    ensures |r| == |e| || |r| == |e| + 1
  {
    if e == [] then [(k, v)]
    else if e[0].0 == k then [(k, v)] + e[1..]
    else [e[0]] + Assign(e[1..], k, v)
  }

  lemma {:induction false} LookupAssign(e: Entries, k: string, v: Value, k': string)
    ensures Lookup(Assign(e, k, v), k') == if k' == k then v else Lookup(e, k')
  {
    if e != [] && e[0].0 != k {
      LookupAssign(e[1..], k, v, k');
    }
  }

  /** Assigning keeps the key order, appending a key only when it is new. */
  lemma {:induction false} AssignKeys(e: Entries, k: string, v: Value)
    ensures Keys(Assign(e, k, v)) == if HasKey(e, k) then Keys(e) else Keys(e) + [k]
  {
    var key := (p: (string, Value)) => p.0;
    if e == [] {
    } else if e[0].0 == k {
      assert HasKey(e, k);
      assert Keys([(k, v)] + e[1..]) == Keys([(k, v)]) + Keys(e[1..]) by {
        MapConcat([(k, v)], e[1..], key);
      }
      assert Keys(e) == Keys([e[0]]) + Keys(e[1..]) by {
        assert e == [e[0]] + e[1..];
        MapConcat([e[0]], e[1..], key);
      }
    } else {
      AssignKeys(e[1..], k, v);
      assert HasKey(e, k) <==> HasKey(e[1..], k) by {
        if HasKey(e, k) {
          var i :| 0 <= i < |e| && e[i].0 == k;
          assert e[1..][i - 1].0 == k;
        }
        if HasKey(e[1..], k) {
          var i :| 0 <= i < |e[1..]| && e[1..][i].0 == k;
          assert e[i + 1].0 == k;
        }
      }
      assert Assign(e, k, v) == [e[0]] + Assign(e[1..], k, v);
      MapConcat([e[0]], Assign(e[1..], k, v), key);
      assert Keys(e) == Keys([e[0]]) + Keys(e[1..]) by {
        assert e == [e[0]] + e[1..];
        MapConcat([e[0]], e[1..], key);
      }
    }
  }

  /** Distinct keys stay distinct. */
  lemma AssignUnique(e: Entries, k: string, v: Value)
    requires UniqueKeys(e)
    ensures UniqueKeys(Assign(e, k, v))
  {
    var r := Assign(e, k, v);
    AssignKeys(e, k, v);
    var key := (p: (string, Value)) => p.0;
    forall i, j | 0 <= i < j < |r| ensures r[i].0 != r[j].0 {
      MapAt(r, key, i);
      MapAt(r, key, j);
      if j < |e| {
        MapAt(e, key, i);
        MapAt(e, key, j);
      } else {
        MapAt(e, key, i);
        assert !HasKey(e, k);
      }
    }
  }

  /* ---------------- loading and editing ---------------- */

  /** A loaded `categoryId`: an object is replaced by its `_id`, an array
      (which has none) by `undefined`, anything else is kept. `None` stands
      for `null`, on which reading `_id` throws, so that the load fails. */
  function NormaliseCategoryId(v: Value): (r: Option<Value>)
    ensures r.None? <==> v == Null
    ensures v.Obj? ==> r == Some(Lookup(v.fields, "_id"))
    ensures v.Arr? ==> r == Some(Undefined)
    ensures !v.Obj? && !v.Arr? && v != Null ==> r == Some(v)
  {
    match v
    case Obj(fields) => Some(Lookup(fields, "_id"))
    case Arr(_) => Some(Undefined)
    case Null => None
    case _ => Some(v)
  }

  /** Normalising an already normalised id changes nothing. */
  lemma NormaliseCategoryIdStable(v: Value)
    requires NormaliseCategoryId(v).Some?
    requires var r := NormaliseCategoryId(v).value; !r.Obj? && !r.Arr? && r != Null
    ensures NormaliseCategoryId(NormaliseCategoryId(v).value) == NormaliseCategoryId(v)
  {
  }

  /** What `handleChange` stores for a field: a number for the price (the
      caller converts the text), the text itself for every other field. */
  function ChangedValue(key: string, text: string, number: int): Value {
    if key == "hourlyPrice" then Num(number) else Str(text)
  }

  /* ---------------- validation ---------------- */

  /** The price check `!price || price <= 0`. */
  predicate PriceInvalid(v: Value) {
    !Truthy(v) || (v.Num? && v.n <= 0)
  }

  /** A numeric price passes exactly when it is positive; a missing one
      never passes. */
  lemma PriceRule(n: int)
    ensures !PriceInvalid(Num(n)) <==> n > 0
    ensures PriceInvalid(Undefined) && PriceInvalid(Null)
  {
  }

  /** `validateForm`'s error object, built one field at a time. */
  method CollectErrors(form: Entries) returns (errors: map<string, string>)
    ensures ("name" in errors <==> !Truthy(Lookup(form, "name")))
    ensures ("speciality" in errors <==> !Truthy(Lookup(form, "speciality")))
    ensures ("city" in errors <==> !Truthy(Lookup(form, "city")))
    ensures ("address" in errors <==> !Truthy(Lookup(form, "address")))
    ensures ("hourlyPrice" in errors <==> PriceInvalid(Lookup(form, "hourlyPrice")))
    ensures ("categoryId" in errors <==> !Truthy(Lookup(form, "categoryId")))
    ensures errors.Keys <= {"name", "speciality", "city", "address", "hourlyPrice", "categoryId"}
    ensures forall k :: k in errors ==> errors[k] == if k == "hourlyPrice" then InvalidPrice else Required
  {
    errors := map[];
    if !Truthy(Lookup(form, "name")) { errors := errors["name" := Required]; }
    if !Truthy(Lookup(form, "speciality")) { errors := errors["speciality" := Required]; }
    if !Truthy(Lookup(form, "city")) { errors := errors["city" := Required]; }
    if !Truthy(Lookup(form, "address")) { errors := errors["address" := Required]; }
    if PriceInvalid(Lookup(form, "hourlyPrice")) { errors := errors["hourlyPrice" := InvalidPrice]; }
    if !Truthy(Lookup(form, "categoryId")) { errors := errors["categoryId" := Required]; }
  }

  /* ---------------- the request body ---------------- */

  predicate Present(p: (string, Value)) {
    p.1 != Undefined && p.1 != Null
  }

  function ToPart(p: (string, Value)): (string, Part) {
    (p.0, Field(p.1))
  }

  /** The fields `handleSubmit` appends: every present one, in order. */
  function FieldParts(form: Entries): seq<(string, Part)> {
    Map(Filter(form, Present), ToPart)
  }

  /** The whole multipart body: the present fields, then the avatar. */
  function PayloadOf(form: Entries, avatar: Option<string>): (r: seq<(string, Part)>)
    ensures |r| <= |form| + 1
  {
    FieldParts(form) + (if avatar.Some? then [("avatar", File(avatar.value))] else [])
  }

  lemma FieldPartsSnoc(form: Entries, p: (string, Value))
    ensures FieldParts(form + [p]) == FieldParts(form) + (if Present(p) then [ToPart(p)] else [])
  {
    FilterConcat(form, [p], Present);
    assert [p][1..] == [];
    MapConcat(Filter(form, Present), Filter([p], Present), ToPart);
  }

  /** The body holds a field exactly when the form holds it with a value
      other than `undefined` or `null`, and holds the avatar exactly when a
      file was chosen. */
  lemma PayloadSpec(form: Entries, avatar: Option<string>, k: string, v: Value, f: string)
    ensures (k, Field(v)) in PayloadOf(form, avatar) <==> (k, v) in form && v != Undefined && v != Null
    ensures (k, File(f)) in PayloadOf(form, avatar) <==> k == "avatar" && avatar == Some(f)
  {
    var kept := Filter(form, Present);
    if (k, Field(v)) in PayloadOf(form, avatar) {
      assert (k, Field(v)) in FieldParts(form);
      MapMember(kept, ToPart, (k, Field(v)));
      FilterSound(form, Present, (k, v));
    }
    if (k, v) in form && Present((k, v)) {
      FilterComplete(form, Present, (k, v));
      MapHasImage(kept, ToPart, (k, v));
    }
    if (k, File(f)) in FieldParts(form) {
      MapMember(kept, ToPart, (k, File(f)));
    }
  }

  /** `handleSubmit`'s `forEach` over `Object.entries(formData)`, then the
      avatar. */
  method BuildPayload(form: Entries, avatar: Option<string>) returns (data: seq<(string, Part)>)
    ensures data == PayloadOf(form, avatar)
  {
    data := [];
    var i := 0;
    while i < |form|
      invariant 0 <= i <= |form|
      invariant data == FieldParts(form[..i])
    {
      var entry := form[i];
      FieldPartsSnoc(form[..i], entry);
      assert form[..i + 1] == form[..i] + [entry];
      if entry.1 != Undefined && entry.1 != Null {
        data := data + [(entry.0, Field(entry.1))];
      }
      i := i + 1;
    }
    assert form[..|form|] == form;
    if avatar.Some? {
      data := data + [("avatar", File(avatar.value))];
    }
  }

  /* ---------------- the component ---------------- */

  class ProviderForm {
    const providerId: Option<string>
    var formData: Entries
    var errors: map<string, string>
    var avatar: Option<string>
    var title: string

    /** The form record is an object: no key occurs twice. */
    ghost predicate Valid()
      reads this`formData
    {
      UniqueKeys(formData)
    }

    constructor (providerId: Option<string>)
      ensures this.providerId == providerId
      ensures formData == InitialForm && errors == map[] && avatar == None
      ensures Valid()
      ensures title == if providerId.Some? && providerId.value != "" then "Edit Provider" else "Add Provider"
    {
      this.providerId := providerId;
      formData, errors, avatar := InitialForm, map[], None;
      title := if providerId.Some? && providerId.value != "" then "Edit Provider" else "Add Provider";
    }

    /** The edited provider once fetched: its fields replace the form, with
        `categoryId` normalised. A failed fetch, or a `null` category, which
        makes the handler throw, changes nothing. A decoded response object
        has distinct keys, so the record keeps them distinct. */
    method LoadProvider(fetched: Option<Entries>)
      requires Valid()
      requires fetched.Some? ==> UniqueKeys(fetched.value)
      modifies this`formData
      ensures Valid()
      ensures if providerId.Some? && providerId.value != "" && fetched.Some?
                 && NormaliseCategoryId(Lookup(fetched.value, "categoryId")).Some?
        then formData == Assign(fetched.value, "categoryId",
                                NormaliseCategoryId(Lookup(fetched.value, "categoryId")).value)
        else formData == old(formData)
    {
      if !(providerId.Some? && providerId.value != "") || fetched.None? {
        return;
      }
      var category := NormaliseCategoryId(Lookup(fetched.value, "categoryId"));
      if category.Some? {
        AssignUnique(fetched.value, "categoryId", category.value);
        formData := Assign(fetched.value, "categoryId", category.value);
      }
    }

    /** `handleChange`: only the edited field changes, and only its error is
        cleared. */
    method HandleChange(key: string, text: string, number: int)
      requires Valid()
      modifies this`formData, this`errors
      ensures Valid()
      ensures formData == Assign(old(formData), key, ChangedValue(key, text, number))
      ensures errors == old(errors) - {key}
    {
      AssignUnique(formData, key, ChangedValue(key, text, number));
      formData := Assign(formData, key, ChangedValue(key, text, number));
      errors := errors - {key};
    }

    /** `handleAvatarChange`: a chosen file replaces the avatar; closing the
        dialog without one keeps the previous choice. */
    method HandleAvatarChange(file: Option<string>)
      modifies this`avatar
      ensures avatar == if file.Some? then file else old(avatar)
    {
      if file.Some? {
        avatar := file;
      }
    }

    method ValidateForm() returns (ok: bool)
      modifies this`errors
      ensures ("name" in errors <==> !Truthy(Lookup(formData, "name")))
      ensures ("speciality" in errors <==> !Truthy(Lookup(formData, "speciality")))
      ensures ("city" in errors <==> !Truthy(Lookup(formData, "city")))
      ensures ("address" in errors <==> !Truthy(Lookup(formData, "address")))
      ensures ("hourlyPrice" in errors <==> PriceInvalid(Lookup(formData, "hourlyPrice")))
      ensures ("categoryId" in errors <==> !Truthy(Lookup(formData, "categoryId")))
      ensures errors.Keys <= {"name", "speciality", "city", "address", "hourlyPrice", "categoryId"}
      ensures forall k :: k in errors ==> errors[k] == if k == "hourlyPrice" then InvalidPrice else Required
      ensures ok <==> errors == map[]
    {
      errors := CollectErrors(formData);
      ok := errors == map[];
    }

    /** `handleSubmit`: an invalid form sends nothing; a valid one sends one
        create or update request with the present fields and the avatar, and
        goes back to the provider list when the service accepts it. */
    method HandleSubmit(serviceOk: bool) returns (request: Option<ProviderRequest>, navigateTo: Option<string>)
      modifies this`errors
      ensures ("name" in errors <==> !Truthy(Lookup(formData, "name")))
      ensures ("speciality" in errors <==> !Truthy(Lookup(formData, "speciality")))
      ensures ("city" in errors <==> !Truthy(Lookup(formData, "city")))
      ensures ("address" in errors <==> !Truthy(Lookup(formData, "address")))
      ensures ("hourlyPrice" in errors <==> PriceInvalid(Lookup(formData, "hourlyPrice")))
      ensures ("categoryId" in errors <==> !Truthy(Lookup(formData, "categoryId")))
      ensures errors.Keys <= {"name", "speciality", "city", "address", "hourlyPrice", "categoryId"}
      ensures forall k :: k in errors ==> errors[k] == if k == "hourlyPrice" then InvalidPrice else Required
      ensures request.Some? <==> errors == map[]
      ensures request.Some? ==> request.value == RequestFor(providerId, PayloadOf(formData, avatar))
      ensures navigateTo == if request.Some? && serviceOk then Some(ProvidersPage) else None
    {
      var ok := ValidateForm();
      if !ok {
        return None, None;
      }
      var data := BuildPayload(formData, avatar);
      request := Some(RequestFor(providerId, data));
      navigateTo := if serviceOk then Some(ProvidersPage) else None;
    }
  }
}
