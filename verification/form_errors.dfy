/** The validation errors both contact forms display, one entry per field
    the schema rejects, and the form library's re-validation of a single
    edited field. `F` is the form's field type. */
module FormErrors {

  datatype FieldError<F> = FieldError(field: F, message: string)

  /** A field that `errs` reports. */
  predicate Reports<F(==,!new)>(errs: seq<FieldError<F>>, f: F)
  {
    exists i :: 0 <= i < |errs| && errs[i].field == f
  }

  /** The entries of `errs` about field `f`, in order. */
  function Only<F(==,!new)>(errs: seq<FieldError<F>>, f: F): (r: seq<FieldError<F>>)
    ensures forall e :: e in r ==> e.field == f && e in errs
    ensures Reports(r, f) <==> Reports(errs, f)
  {
    if errs == [] then []
    else
      var rest := Only(errs[1..], f);
      ReportsCons(errs);
      ReportsAppend([errs[0]], rest);
      assert [errs[0]][0] == errs[0];
      if errs[0].field == f then [errs[0]] + rest else rest
  }

  /** The entries of `errs` about fields other than `f`, in order. */
  function Without<F(==,!new)>(errs: seq<FieldError<F>>, f: F): (r: seq<FieldError<F>>)
    ensures forall e :: e in r ==> e.field != f && e in errs
    ensures forall g :: g != f ==> (Reports(r, g) <==> Reports(errs, g))
  {
    if errs == [] then []
    else
      var rest := Without(errs[1..], f);
      ReportsCons(errs);
      ReportsAppend([errs[0]], rest);
      assert [errs[0]][0] == errs[0];
      if errs[0].field != f then [errs[0]] + rest else rest
  }

  /** The errors after the library re-runs the schema for the edited field
      `f` alone: `f`'s entry comes from the schema's new verdict `verdict`, and
      every other field keeps the entry it had. */
  function Revalidated<F(==,!new)>(errs: seq<FieldError<F>>, f: F, verdict: seq<FieldError<F>>): (r: seq<FieldError<F>>)
    ensures forall g :: Reports(r, g) <==> if g == f then Reports(verdict, f) else Reports(errs, g)
    ensures forall e :: e in r ==> if e.field == f then e in verdict else e in errs
  {
    var kept := Without(errs, f);
    var renewed := Only(verdict, f);
    ReportsAppend(kept, renewed);
    kept + renewed
  }

  /** A concatenation reports exactly what either part reports. */
  lemma ReportsAppend<F(!new)>(a: seq<FieldError<F>>, b: seq<FieldError<F>>)
    ensures forall g :: Reports(a + b, g) <==> Reports(a, g) || Reports(b, g)
  {
    forall g
      ensures Reports(a + b, g) <==> Reports(a, g) || Reports(b, g)
    {
      if Reports(a, g) {
        var i :| 0 <= i < |a| && a[i].field == g;
        assert (a + b)[i] == a[i];
      }
      if Reports(b, g) {
        var i :| 0 <= i < |b| && b[i].field == g;
        assert (a + b)[|a| + i] == b[i];
      }
      if Reports(a + b, g) {
        var i :| 0 <= i < |a + b| && (a + b)[i].field == g;
        if i < |a| {
          assert a[i] == (a + b)[i];
        } else {
          assert b[i - |a|] == (a + b)[i];
        }
      }
    }
  }

  /** A non-empty list reports what its head or its tail reports. */
  lemma ReportsCons<F(!new)>(errs: seq<FieldError<F>>)
    requires errs != []
    ensures forall g :: Reports(errs, g) <==> errs[0].field == g || Reports(errs[1..], g)
  {
    assert errs == [errs[0]] + errs[1..];
    ReportsAppend([errs[0]], errs[1..]);
    assert [errs[0]][0] == errs[0];
  }
}
