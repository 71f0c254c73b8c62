/** The entities the audit receivers see and the field-level diff
    `get_field_changes` computes between two of them. */
module AuditDiff {
  import opened Wrappers

  /** What the receivers read from `sender._meta`: the app label, the model's
      class name (`object_name`), its `verbose_name` and the ordered names of
      its concrete fields (`_meta.fields`). */
  datatype ModelMeta = ModelMeta(appLabel: string, objectName: string, verboseName: string, fields: seq<string>)

  /** `_meta.label`, that is `"<app_label>.<ObjectName>"`. */
  function ModelLabel(m: ModelMeta): string {
    m.appLabel + "." + m.objectName
  }

  /** A model instance as the receivers see it: its model, its primary key
      (`None` before the first save), the string form of every attribute they
      read (`None` is Python's `None`) and `str(instance)`. */
  datatype Instance = Instance(meta: ModelMeta, pk: Option<nat>, values: map<string, Option<string>>, repr: string)

  /** `str(getattr(instance, name, None))`, keeping `None` as `None`. */
  function Attr(inst: Instance, name: string): Option<string> {
    if name in inst.values then inst.values[name] else None
  }

  /** One entry of the change dictionary: `{name: {'anterior': ..., 'nuevo': ...}}`. */
  datatype Change = Change(campo: string, anterior: Option<string>, nuevo: Option<string>)

  /** The audit bookkeeping fields that are never compared. */
  const IgnoredFields: seq<string> := ["id", "fecha_creacion", "fecha_actualizacion"]

  /** Whether field `f` counts as changed between the two instances. */
  predicate Differs(before: Instance, after: Instance, f: string) {
    f !in IgnoredFields && Attr(before, f) != Attr(after, f)
  }

  /** The change dictionary over the field list `fields`, in insertion order:
      the entries for the fields before the last one, then the last one. */
  function ChangesOver(fields: seq<string>, before: Instance, after: Instance): seq<Change>
    decreases |fields|
  {
    if fields == [] then []
    else
      var f := fields[|fields| - 1];
      var rest := ChangesOver(fields[..|fields| - 1], before, after);
      if Differs(before, after, f) then rest + [Change(f, Attr(before, f), Attr(after, f))] else rest
  }

  /** `get_field_changes(old_instance, new_instance)`: no prior instance means
      no changes; otherwise the fields of the new instance's model, in order. */
  function FieldChanges(before: Option<Instance>, after: Instance): seq<Change> {
    match before
    case None => []
    case Some(b) => ChangesOver(after.meta.fields, b, after)
  }

  /** The field names of a change list, in order. */
  function Campos(changes: seq<Change>): (r: seq<string>)
    ensures |r| == |changes|
    ensures forall i :: 0 <= i < |changes| ==> r[i] == changes[i].campo
  {
    if changes == [] then [] else Campos(changes[..|changes| - 1]) + [changes[|changes| - 1].campo]
  }

  /** `xs` is `ys` with some elements left out, order kept. */
  predicate IsSubsequence(xs: seq<string>, ys: seq<string>)
    decreases |ys|
  {
    if xs == [] then true
    else if ys == [] then false
    else if xs[|xs| - 1] == ys[|ys| - 1] then IsSubsequence(xs[..|xs| - 1], ys[..|ys| - 1])
    else IsSubsequence(xs, ys[..|ys| - 1])
  }

  /** The loop of `get_field_changes`, inserting into the dictionary as it
      goes. */
  method GetFieldChanges(before: Option<Instance>, after: Instance) returns (changes: seq<Change>)
    ensures changes == FieldChanges(before, after)
  {
    changes := [];
    if before.None? {
      return;
    }
    var b := before.value;
    var fields := after.meta.fields;
    var i := 0;
    while i < |fields|
      invariant 0 <= i <= |fields|
      invariant changes == ChangesOver(fields[..i], b, after)
    {
      var name := fields[i];
      assert fields[..i + 1][..i] == fields[..i];
      if name !in IgnoredFields {
        var oldStr := Attr(b, name);
        var newStr := Attr(after, name);
        if oldStr != newStr {
          changes := changes + [Change(name, oldStr, newStr)];
        }
      }
      i := i + 1;
    }
    assert fields[..i] == fields;
  }

  /** A field has an entry iff it is one of the model's fields, it is not a
      bookkeeping field, and its string forms differ; each entry carries the
      value before and the value after. */
  lemma {:induction false} ChangesOverExactly(fields: seq<string>, before: Instance, after: Instance, f: string)
    ensures (exists c :: c in ChangesOver(fields, before, after) && c.campo == f)
            <==> (f in fields && Differs(before, after, f))
    ensures forall c :: c in ChangesOver(fields, before, after) ==>
              c.anterior == Attr(before, c.campo) && c.nuevo == Attr(after, c.campo)
    decreases |fields|
  {
    if fields != [] {
      var init := fields[..|fields| - 1];
      var last := fields[|fields| - 1];
      ChangesOverExactly(init, before, after, f);
      assert fields == init + [last];
      var rest := ChangesOver(init, before, after);
      if Differs(before, after, last) {
        var c := Change(last, Attr(before, last), Attr(after, last));
        assert ChangesOver(fields, before, after) == rest + [c];
        if f == last {
          assert c in ChangesOver(fields, before, after);
        }
      }
    }
  }

  /** The change set of an update: empty without a prior instance; otherwise a
      field is reported iff it is a model field outside `IgnoredFields` whose
      string forms differ, with exactly those two strings. */
  lemma FieldChangesCharacterized(before: Option<Instance>, after: Instance, f: string)
    ensures before.None? ==> FieldChanges(before, after) == []
    ensures before.Some? ==>
              ((exists c :: c in FieldChanges(before, after) && c.campo == f)
               <==> (f in after.meta.fields && Differs(before.value, after, f)))
    ensures before.Some? ==> forall c :: c in FieldChanges(before, after) ==>
              c.anterior == Attr(before.value, c.campo) && c.nuevo == Attr(after, c.campo)
  {
    if before.Some? {
      ChangesOverExactly(after.meta.fields, before.value, after, f);
    }
  }

  /** `id`, `fecha_creacion` and `fecha_actualizacion` never appear. */
  lemma IgnoredNeverReported(before: Option<Instance>, after: Instance)
    ensures forall c :: c in FieldChanges(before, after) ==> c.campo !in IgnoredFields
  {
    forall c | c in FieldChanges(before, after)
      ensures c.campo !in IgnoredFields
    {
      FieldChangesCharacterized(before, after, c.campo);
    }
  }

  /** The entries follow the order of the model's fields. */
  lemma {:induction false} ChangesOverInFieldOrder(fields: seq<string>, before: Instance, after: Instance)
    ensures IsSubsequence(Campos(ChangesOver(fields, before, after)), fields)
    decreases |fields|
  {
    if fields != [] {
      var init := fields[..|fields| - 1];
      var last := fields[|fields| - 1];
      var rest := ChangesOver(init, before, after);
      ChangesOverInFieldOrder(init, before, after);
      if Differs(before, after, last) {
        var cs := rest + [Change(last, Attr(before, last), Attr(after, last))];
        assert Campos(cs)[..|cs| - 1] == Campos(rest);
      } else {
        SubsequenceOfLonger(Campos(rest), init, last);
      }
    }
  }

  lemma {:induction false} SubsequenceOfLonger(xs: seq<string>, ys: seq<string>, y: string)
    requires IsSubsequence(xs, ys)
    ensures IsSubsequence(xs, ys + [y])
    decreases |ys|, 1
  {
    var zs := ys + [y];
    assert zs[..|zs| - 1] == ys;
    if xs != [] && xs[|xs| - 1] == y {
      SubsequenceDropLast(xs, ys);
    }
  }

  lemma {:induction false} SubsequenceDropLast(xs: seq<string>, ys: seq<string>)
    requires xs != [] && IsSubsequence(xs, ys)
    ensures IsSubsequence(xs[..|xs| - 1], ys)
    decreases |ys|, 0
  {
    var init := xs[..|xs| - 1];
    var yinit := ys[..|ys| - 1];
    assert yinit + [ys[|ys| - 1]] == ys;
    if xs[|xs| - 1] != ys[|ys| - 1] {
      SubsequenceDropLast(xs, yinit);
    }
    SubsequenceOfLonger(init, yinit, ys[|ys| - 1]);
  }

  /** Diffing against a prior instance with the same string form on every
      compared field gives `{}`; and an empty change set means exactly that. */
  lemma NoChangesIffSameFields(before: Instance, after: Instance)
    ensures FieldChanges(Some(before), after) == []
            <==> forall f :: f in after.meta.fields ==> !Differs(before, after, f)
  {
    if FieldChanges(Some(before), after) == [] {
      forall f | f in after.meta.fields
        ensures !Differs(before, after, f)
      {
        FieldChangesCharacterized(Some(before), after, f);
      }
    } else {
      var c := FieldChanges(Some(before), after)[0];
      FieldChangesCharacterized(Some(before), after, c.campo);
    }
  }

  /** Saving an instance that was just snapshotted unchanged reports nothing. */
  lemma IdenticalStatesNoChanges(before: Instance, after: Instance)
    requires before.values == after.values
    ensures FieldChanges(Some(before), after) == []
  {
    NoChangesIffSameFields(before, after);
  }
}
