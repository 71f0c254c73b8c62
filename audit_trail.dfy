/** The audit receivers: `store_pre_save_instance` keeps a copy of the stored
    row before an update, `create_audit_log` writes one CREATE or UPDATE
    record after every save of an audited model (consuming the copy to
    compute the changes), `create_delete_audit_log` writes one DELETE record,
    and any exception inside a receiver is swallowed. */
module AuditTrail {
  import opened Wrappers
  import opened AuditDiff
  import Text
  import ActorContext
  import AuditHistory

  datatype Action = Create | Update | Delete

  /** The stored value of `accion`. */
  function ActionValue(a: Action): string {
    match a
    case Create => "CREATE"
    case Update => "UPDATE"
    case Delete => "DELETE"
  }

  /** `ContentType.objects.get_for_model(sender)`, as the model it names. */
  datatype ContentRef = ContentRef(appLabel: string, model: string)

  function ContentTypeOf(m: ModelMeta): ContentRef {
    ContentRef(m.appLabel, m.objectName)
  }

  /** One `AuditLog` row, with the columns `create_audit_log` fills. */
  datatype AuditRecord = AuditRecord(
    usuario: Option<ActorContext.User>, usuarioNombre: string, accion: Action,
    contentType: ContentRef, objectId: Option<nat>, modelo: string,
    objetoRepr: string, cambios: seq<Change>)

  /** The apps whose instances get a stored copy before an update. */
  const SnapshottedApps: seq<string> := ["inventario", "pedidos", "cotizaciones", "ventas"]

  /** The apps whose saves and deletes are logged. */
  const AuditedApps: seq<string> := SnapshottedApps + ["usuarios"]

  /** The two guards at the top of the post-save and post-delete receivers. */
  predicate Audited(m: ModelMeta) {
    m.appLabel != "auditorias" && m.appLabel in AuditedApps
  }

  /** `usuario.get_full_name() or usuario.username if usuario else "Sistema"`.
      `None` stands for the `AttributeError` raised on `AnonymousUser`, which
      has no `get_full_name`. */
  function ActorLabel(u: Option<ActorContext.User>): (r: Option<string>)
    ensures u == None ==> r == Some("Sistema")
    ensures u == Some(ActorContext.Anonymous) <==> r.None?
    ensures u.Some? && u.value.Registered? ==>
              r == Some(if u.value.fullName != "" then u.value.fullName else u.value.username)
  {
    if u.None? then Some("Sistema")
    else if u.value.Anonymous? then None
    else Some(if u.value.fullName != "" then u.value.fullName else u.value.username)
  }

  /** `str(instance.pk)`. */
  function PkString(pk: Option<nat>): string {
    match pk
    case None => "None"
    case Some(n) => Text.NatToString(n)
  }

  /** `f"{sender._meta.label}_{instance.pk}"`. */
  function SnapshotKey(m: ModelMeta, pk: Option<nat>): string {
    ModelLabel(m) + "_" + PkString(pk)
  }

  /** `if instance.pk:` — a key of 0 is false as well as `None`. */
  predicate PkTruthy(pk: Option<nat>) {
    pk.Some? && pk.value != 0
  }

  /** `_pre_save_instances`, the log table and the history tables. */
  datatype AuditState = AuditState(snapshots: map<string, Instance>, log: seq<AuditRecord>, history: seq<AuditHistory.HistoryRow>)

  function OptionToSeq<T>(o: Option<T>): seq<T> {
    if o.Some? then [o.value] else []
  }

  /** The stored copy of `inst`: the row read back by key. */
  function Snapshot(inst: Instance, stored: Instance): Instance {
    Instance(inst.meta, inst.pk, stored.values, stored.repr)
  }

  /** `store_pre_save_instance`. `stored` is what `sender.objects.get(pk=
      instance.pk)` returns; `None` is `DoesNotExist`, which is ignored. */
  function PreSave(st: AuditState, inst: Instance, stored: Option<Instance>): AuditState {
    if inst.meta.appLabel in SnapshottedApps && PkTruthy(inst.pk) && stored.Some? then
      st.(snapshots := st.snapshots[SnapshotKey(inst.meta, inst.pk) := Snapshot(inst, stored.value)])
    else st
  }

  /** `create_audit_log`. `u` is what `get_current_user()` returns; `logOk`
      says whether writing the log row succeeds and `historyOk` whether
      `create_specific_history` does (its failure is swallowed inside it). */
  function PostSave(st: AuditState, inst: Instance, created: bool, u: Option<ActorContext.User>, logOk: bool, historyOk: bool): AuditState {
    if !Audited(inst.meta) then st
    else match ActorLabel(u)
      case None => st
      case Some(nombre) =>
        var key := SnapshotKey(inst.meta, inst.pk);
        var prior := if key in st.snapshots then Some(st.snapshots[key]) else None;
        var snapshots := st.snapshots - {key};
        if !logOk then st.(snapshots := snapshots)
        else
          var record := AuditRecord(u, nombre, if created then Create else Update, ContentTypeOf(inst.meta),
                                    inst.pk, inst.meta.verboseName, inst.repr,
                                    if created then [] else FieldChanges(prior, inst));
          var history := if historyOk then st.history + OptionToSeq(AuditHistory.SpecificHistory(inst, created, prior, u)) else st.history;
          AuditState(snapshots, st.log + [record], history)
  }

  /** `create_delete_audit_log`. */
  function PostDelete(st: AuditState, inst: Instance, u: Option<ActorContext.User>, logOk: bool): AuditState {
    if !Audited(inst.meta) then st
    else match ActorLabel(u)
      case None => st
      case Some(nombre) =>
        if logOk then
          st.(log := st.log + [AuditRecord(u, nombre, Delete, ContentTypeOf(inst.meta), inst.pk,
                                           inst.meta.verboseName, inst.repr, [])])
        else st
  }

  /** What every receiver keeps: each stored copy sits under its own key and
      belongs to an app that gets copies. */
  ghost predicate Invariant(st: AuditState) {
    forall k :: k in st.snapshots ==>
      k == SnapshotKey(st.snapshots[k].meta, st.snapshots[k].pk) &&
      st.snapshots[k].meta.appLabel in SnapshottedApps
  }

  lemma InvariantPreserved(st: AuditState, inst: Instance, stored: Option<Instance>, created: bool,
                           u: Option<ActorContext.User>, logOk: bool, historyOk: bool)
    requires Invariant(st)
    ensures Invariant(PreSave(st, inst, stored))
    ensures Invariant(PostSave(st, inst, created, u, logOk, historyOk))
    ensures Invariant(PostDelete(st, inst, u, logOk))
  {
  }

  lemma PkStringNoUnderscore(pk: Option<nat>)
    ensures '_' !in PkString(pk)
    ensures pk.Some? <==> Text.AllDigits(PkString(pk))
  {
    if pk.None? {
      assert !Text.IsDigit(PkString(pk)[0]);
    }
  }

  /** Splitting at the last separator: what precedes it and what follows it
      are determined by the whole string. */
  lemma SplitAtLast(p1: string, t1: string, p2: string, t2: string, sep: char)
    requires p1 + [sep] + t1 == p2 + [sep] + t2 && sep !in t1 && sep !in t2
    ensures p1 == p2 && t1 == t2
  {
    Text.LastSegmentAfter(p1, sep, t1);
    Text.LastSegmentAfter(p2, sep, t2);
    var s := p1 + [sep] + t1;
    assert p1 == s[..|s| - |t1| - 1];
    assert p2 == s[..|s| - |t2| - 1];
  }

  /** Different models or different keys never share a stored copy: the
      key determines both the model label and the primary key. */
  lemma SnapshotKeyInjective(m1: ModelMeta, p1: Option<nat>, m2: ModelMeta, p2: Option<nat>)
    requires SnapshotKey(m1, p1) == SnapshotKey(m2, p2)
    ensures ModelLabel(m1) == ModelLabel(m2) && p1 == p2
  {
    PkStringNoUnderscore(p1);
    PkStringNoUnderscore(p2);
    assert "_" == ['_'];
    SplitAtLast(ModelLabel(m1), PkString(p1), ModelLabel(m2), PkString(p2), '_');
    if p1.Some? && p2.Some? {
      Text.NatToStringInjective(p1.value, p2.value);
    }
  }

  /** The pre-save receiver changes only the copies, and stores one exactly
      for an instance with a true key of a copied app whose row is found. */
  lemma PreSaveSpec(st: AuditState, inst: Instance, stored: Option<Instance>)
    ensures inst.meta.appLabel in SnapshottedApps && PkTruthy(inst.pk) && stored.Some? ==>
              PreSave(st, inst, stored) ==
                st.(snapshots := st.snapshots[SnapshotKey(inst.meta, inst.pk) := Snapshot(inst, stored.value)])
    ensures !(inst.meta.appLabel in SnapshottedApps && PkTruthy(inst.pk) && stored.Some?) ==>
              PreSave(st, inst, stored) == st
  {
  }

  /** Every audited save with a loggable actor appends exactly one record:
      CREATE with no changes, or UPDATE with the diff against the stored copy
      (even when that diff is empty). The copy is consumed and no other copy
      is touched. */
  lemma PostSaveRecord(st: AuditState, inst: Instance, created: bool, u: Option<ActorContext.User>, historyOk: bool)
    requires Audited(inst.meta) && ActorLabel(u).Some?
    ensures var r := PostSave(st, inst, created, u, true, historyOk);
            var key := SnapshotKey(inst.meta, inst.pk);
            var prior := if key in st.snapshots then Some(st.snapshots[key]) else None;
            |r.log| == |st.log| + 1 && r.log[..|st.log|] == st.log &&
            r.log[|st.log|].accion == (if created then Create else Update) &&
            r.log[|st.log|].objectId == inst.pk &&
            r.log[|st.log|].contentType == ContentTypeOf(inst.meta) &&
            r.log[|st.log|].usuario == u && Some(r.log[|st.log|].usuarioNombre) == ActorLabel(u) &&
            r.log[|st.log|].objetoRepr == inst.repr &&
            r.log[|st.log|].modelo == inst.meta.verboseName &&
            (created ==> r.log[|st.log|].cambios == []) &&
            (!created ==> r.log[|st.log|].cambios == FieldChanges(prior, inst)) &&
            key !in r.snapshots &&
            (forall k :: k in st.snapshots && k != key ==> k in r.snapshots && r.snapshots[k] == st.snapshots[k]) &&
            (forall k :: k in r.snapshots ==> k in st.snapshots)
    ensures var r := PostSave(st, inst, created, u, true, historyOk);
            var key := SnapshotKey(inst.meta, inst.pk);
            var prior := if key in st.snapshots then Some(st.snapshots[key]) else None;
            r.history == st.history + (if historyOk then OptionToSeq(AuditHistory.SpecificHistory(inst, created, prior, u)) else [])
  {
  }

  /** The history effect of the whole save pipeline for a model with a
      history table: a creation appends one row; an update against a stored
      copy appends one row exactly when a watched column changed; a failed
      history write appends nothing. */
  lemma PostSaveHistory(st: AuditState, inst: Instance, created: bool, u: Option<ActorContext.User>, historyOk: bool)
    requires Audited(inst.meta) && ActorLabel(u).Some? && AuditHistory.KindOf(inst.meta).Some?
    ensures var r := PostSave(st, inst, created, u, true, historyOk);
            !historyOk ==> r.history == st.history
    ensures var r := PostSave(st, inst, created, u, true, historyOk);
            historyOk && created ==> |r.history| == |st.history| + 1 && r.history[..|st.history|] == st.history
    ensures var r := PostSave(st, inst, created, u, true, historyOk);
            var key := SnapshotKey(inst.meta, inst.pk);
            historyOk && !created && key in st.snapshots ==>
              r.history[..|st.history|] == st.history &&
              (|r.history| == |st.history| + 1 <==> AuditHistory.Vigila(AuditHistory.KindOf(inst.meta).value, st.snapshots[key], inst)) &&
              (|r.history| == |st.history| + 1 || r.history == st.history)
  {
    var key := SnapshotKey(inst.meta, inst.pk);
    var prior := if key in st.snapshots then Some(st.snapshots[key]) else None;
    PostSaveRecord(st, inst, created, u, historyOk);
    AuditHistory.SpecificHistoryShape(inst, created, prior, u);
    if !created && key in st.snapshots {
      AuditHistory.SpecificHistoryOnUpdate(inst, st.snapshots[key], u);
    }
  }

  /** One record per delete, with no changes and the key and text of the
      deleted instance; the copies are not touched. */
  lemma PostDeleteRecord(st: AuditState, inst: Instance, u: Option<ActorContext.User>)
    requires Audited(inst.meta) && ActorLabel(u).Some?
    ensures var r := PostDelete(st, inst, u, true);
            r.log == st.log + [AuditRecord(u, ActorLabel(u).value, Delete, ContentTypeOf(inst.meta), inst.pk,
                                           inst.meta.verboseName, inst.repr, [])] &&
            r.snapshots == st.snapshots && r.history == st.history
  {
  }

  /** The `auditorias` app and apps outside the audited list leave no trace. */
  lemma NotAuditedLeavesNoTrace(st: AuditState, inst: Instance, stored: Option<Instance>, created: bool,
                                u: Option<ActorContext.User>, logOk: bool, historyOk: bool)
    requires inst.meta.appLabel == "auditorias" || inst.meta.appLabel !in AuditedApps
    ensures PreSave(st, inst, stored) == st
    ensures PostSave(st, inst, created, u, logOk, historyOk) == st
    ensures PostDelete(st, inst, u, logOk) == st
  {
  }

  /** Failures never escape and never half-write: with an anonymous actor
      nothing happens at all (the error comes before the copy is taken);
      when the log write fails the copy is gone but nothing was written. */
  lemma FailuresAreSwallowed(st: AuditState, inst: Instance, created: bool, u: Option<ActorContext.User>, historyOk: bool)
    ensures PostSave(st, inst, created, Some(ActorContext.Anonymous), true, historyOk) == st
    ensures PostDelete(st, inst, Some(ActorContext.Anonymous), true) == st
    ensures var r := PostSave(st, inst, created, u, false, historyOk);
            r.log == st.log && r.history == st.history &&
            (Audited(inst.meta) && ActorLabel(u).Some? ==> r.snapshots == st.snapshots - {SnapshotKey(inst.meta, inst.pk)})
    ensures PostDelete(st, inst, u, false) == st
  {
  }

  /** The position of the first `c` in `s`. */
  function FirstIndex(s: string, c: char): (i: nat)
    requires c in s
    ensures i < |s| && s[i] == c
  {
    if s[0] == c then 0 else 1 + FirstIndex(s[1..], c)
  }

  lemma {:induction false} FirstIndexAfter(a: string, rest: string, c: char)
    requires c !in a
    ensures c in a + [c] + rest && FirstIndex(a + [c] + rest, c) == |a|
    decreases |a|
  {
    if a != [] {
      assert (a + [c] + rest)[1..] == a[1..] + [c] + rest;
      FirstIndexAfter(a[1..], rest, c);
    }
  }

  /** The app label is what precedes the first dot of the model label, so
      equal labels of dot-free app names have equal app names. */
  lemma AppOfLabel(a: string, b: string, c: string, d: string)
    requires a + "." + b == c + "." + d && '.' !in a && '.' !in c
    ensures a == c
  {
    assert "." == ['.'];
    FirstIndexAfter(a, b, '.');
    FirstIndexAfter(c, d, '.');
    var s := a + "." + b;
    assert a == s[..|a|];
    assert c == s[..|c|];
  }

  lemma NoDotInAppNames(a: string)
    requires a in AuditedApps
    ensures '.' !in a
  {
  }

  /** Users are never copied. */
  lemma UsuariosNeverCopied(st: AuditState, inst: Instance)
    requires Invariant(st) && inst.meta.appLabel == "usuarios"
    ensures SnapshotKey(inst.meta, inst.pk) !in st.snapshots
  {
    var key := SnapshotKey(inst.meta, inst.pk);
    if key in st.snapshots {
      var v := st.snapshots[key];
      SnapshotKeyInjective(v.meta, v.pk, inst.meta, inst.pk);
      NoDotInAppNames(v.meta.appLabel);
      AppOfLabel(v.meta.appLabel, v.meta.objectName, inst.meta.appLabel, inst.meta.objectName);
      assert false;
    }
  }

  /** So an update of a `usuarios` model is logged with an empty change set. */
  lemma UsuariosUpdatesCarryNoChanges(st: AuditState, inst: Instance, u: Option<ActorContext.User>, historyOk: bool)
    requires Invariant(st) && inst.meta.appLabel == "usuarios" && ActorLabel(u).Some?
    ensures var r := PostSave(st, inst, false, u, true, historyOk);
            |r.log| == |st.log| + 1 && r.log[|st.log|].accion == Update && r.log[|st.log|].cambios == []
  {
    UsuariosNeverCopied(st, inst);
    assert Audited(inst.meta);
    PostSaveRecord(st, inst, false, u, historyOk);
  }

  /** A stored copy is used at most once: a second post-save of the same
      instance with no pre-save in between finds none and reports no change. */
  lemma SnapshotUsedOnce(st: AuditState, inst: Instance, u: Option<ActorContext.User>, historyOk: bool)
    requires Audited(inst.meta) && ActorLabel(u).Some?
    ensures var once := PostSave(st, inst, false, u, true, historyOk);
            var twice := PostSave(once, inst, false, u, true, historyOk);
            |twice.log| == |st.log| + 2 && twice.log[|st.log| + 1].cambios == []
  {
    var once := PostSave(st, inst, false, u, true, historyOk);
    PostSaveRecord(st, inst, false, u, historyOk);
    PostSaveRecord(once, inst, false, u, historyOk);
  }

  /** The life of one audited entity, as the test suite drives it: created
      (no key yet, so no copy), updated (copy taken and consumed), deleted.
      The log gains exactly a CREATE, an UPDATE and a DELETE record, all for
      the same content type and key; the UPDATE reports every field whose
      value changed; no copy is left behind. */
  lemma Lifecycle(st: AuditState, nuevo: Instance, creado: Instance, editado: Instance, n: nat,
                  u: Option<ActorContext.User>)
    requires Invariant(st) && Audited(nuevo.meta) && nuevo.meta.appLabel in SnapshottedApps && ActorLabel(u).Some?
    requires nuevo.pk == None && n != 0
    requires creado.meta == nuevo.meta && creado.pk == Some(n)
    requires editado.meta == nuevo.meta && editado.pk == Some(n)
    ensures var s1 := PostSave(PreSave(st, nuevo, None), creado, true, u, true, true);
            var s2 := PostSave(PreSave(s1, editado, Some(creado)), editado, false, u, true, true);
            var s3 := PostDelete(s2, editado, u, true);
            |s3.log| == |st.log| + 3 && s3.log[..|st.log|] == st.log &&
            s3.log[|st.log|].accion == Create && s3.log[|st.log| + 1].accion == Update &&
            s3.log[|st.log| + 2].accion == Delete &&
            (forall i :: |st.log| <= i < |s3.log| ==>
               s3.log[i].objectId == Some(n) && s3.log[i].contentType == ContentTypeOf(nuevo.meta)) &&
            s3.log[|st.log| + 1].cambios == FieldChanges(Some(creado), editado) &&
            (forall f :: f in editado.meta.fields && Differs(creado, editado, f) ==>
               exists c :: c in s3.log[|st.log| + 1].cambios && c.campo == f) &&
            SnapshotKey(nuevo.meta, Some(n)) !in s3.snapshots
  {
    var key := SnapshotKey(nuevo.meta, Some(n));
    var s0 := PreSave(st, nuevo, None);
    var s1 := PostSave(s0, creado, true, u, true, true);
    PostSaveRecord(s0, creado, true, u, true);
    var p := PreSave(s1, editado, Some(creado));
    assert p.snapshots == s1.snapshots[key := Snapshot(editado, creado)];
    var s2 := PostSave(p, editado, false, u, true, true);
    PostSaveRecord(p, editado, false, u, true);
    var snap := Snapshot(editado, creado);
    assert FieldChanges(Some(snap), editado) == FieldChanges(Some(creado), editado) by {
      ChangesOverSameValues(editado.meta.fields, snap, creado, editado);
    }
    var s3 := PostDelete(s2, editado, u, true);
    PostDeleteRecord(s2, editado, u);
    forall f | f in editado.meta.fields && Differs(creado, editado, f)
      ensures exists c :: c in s3.log[|st.log| + 1].cambios && c.campo == f
    {
      FieldChangesCharacterized(Some(creado), editado, f);
    }
  }

  /** The diff reads only the values of the earlier instance. */
  lemma {:induction false} ChangesOverSameValues(fields: seq<string>, a: Instance, b: Instance, after: Instance)
    requires a.values == b.values
    ensures ChangesOver(fields, a, after) == ChangesOver(fields, b, after)
    decreases |fields|
  {
    if fields != [] {
      ChangesOverSameValues(fields[..|fields| - 1], a, b, after);
    }
  }

  /** The receivers and the state they share. */
  class Trail {
    var snapshots: map<string, Instance>
    var log: seq<AuditRecord>
    var history: seq<AuditHistory.HistoryRow>

    function State(): AuditState
      reads this
    {
      AuditState(snapshots, log, history)
    }

    constructor ()
      ensures State() == AuditState(map[], [], [])
    {
      snapshots := map[];
      log := [];
      history := [];
    }

    /** `store_pre_save_instance`. */
    method StorePreSaveInstance(inst: Instance, stored: Option<Instance>)
      modifies this
      ensures State() == PreSave(old(State()), inst, stored)
    {
      if inst.meta.appLabel in SnapshottedApps {
        if PkTruthy(inst.pk) {
          match stored
          case Some(row) =>
            var key := SnapshotKey(inst.meta, inst.pk);
            snapshots := snapshots[key := Snapshot(inst, row)];
          case None =>
        }
      }
    }

    /** `create_specific_history`; `ok` is false when writing the row fails. */
    method CreateSpecificHistory(inst: Instance, created: bool, prior: Option<Instance>, usuario: Option<ActorContext.User>, ok: bool)
      modifies this
      ensures snapshots == old(snapshots) && log == old(log)
      ensures history == old(history) + (if ok then OptionToSeq(AuditHistory.SpecificHistory(inst, created, prior, usuario)) else [])
    {
      var row := AuditHistory.SpecificHistory(inst, created, prior, usuario);
      if ok && row.Some? {
        history := history + [row.value];
      }
    }

    /** `create_audit_log`, reading the actor from `thread`. */
    method CreateAuditLog(inst: Instance, created: bool, thread: ActorContext.Thread, logOk: bool, historyOk: bool)
      modifies this
      ensures State() == PostSave(old(State()), inst, created, thread.GetCurrentUser(), logOk, historyOk)
    {
      if inst.meta.appLabel == "auditorias" {
        return;
      }
      if inst.meta.appLabel !in AuditedApps {
        return;
      }
      var usuario := thread.GetCurrentUser();
      var nombre := ActorLabel(usuario);
      if nombre.None? {
        return;
      }
      var key := SnapshotKey(inst.meta, inst.pk);
      var prior: Option<Instance> := None;
      if key in snapshots {
        prior := Some(snapshots[key]);
      }
      snapshots := snapshots - {key};
      var accion: Action;
      var cambios: seq<Change>;
      if created {
        accion := Create;
        cambios := [];
      } else {
        accion := Update;
        cambios := GetFieldChanges(prior, inst);
      }
      if !logOk {
        return;
      }
      log := log + [AuditRecord(usuario, nombre.value, accion, ContentTypeOf(inst.meta), inst.pk,
                                inst.meta.verboseName, inst.repr, cambios)];
      CreateSpecificHistory(inst, created, prior, usuario, historyOk);
    }

    /** `create_delete_audit_log`, reading the actor from `thread`. */
    method CreateDeleteAuditLog(inst: Instance, thread: ActorContext.Thread, logOk: bool)
      modifies this
      ensures State() == PostDelete(old(State()), inst, thread.GetCurrentUser(), logOk)
    {
      if inst.meta.appLabel == "auditorias" {
        return;
      }
      if inst.meta.appLabel !in AuditedApps {
        return;
      }
      var usuario := thread.GetCurrentUser();
      var nombre := ActorLabel(usuario);
      if nombre.None? {
        return;
      }
      if !logOk {
        return;
      }
      log := log + [AuditRecord(usuario, nombre.value, Delete, ContentTypeOf(inst.meta), inst.pk,
                                inst.meta.verboseName, inst.repr, [])];
    }
  }
}
