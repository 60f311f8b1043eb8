/** One object in the API server, as the three reconcilers of the operator see it.

    Assumptions of the model: reads at the start of a reconcile are fresh, an Update with a
    stale resource version is refused, and only the reconciler itself adds or removes its
    own finalizer. */
module ApiServer {

  datatype Option<+T> = None | Some(value: T)

  /** How one remote call ends: it happened and was answered, it did not happen, or it
      happened and the answer was lost, so that the caller sees an error. */
  datatype Outcome = Answered | Refused | Unanswered

  /** `version` is the resource version, `uid` tells incarnations of one name apart, `ours`
      is this operator's finalizer and `foreign` says whether anybody else holds one. */
  datatype Object<Spec, Status> = Object(
    uid: nat,
    version: nat,
    generation: nat,
    spec: Spec,
    deleting: bool,
    ours: bool,
    foreign: bool,
    status: Status
  )

  /** `clock` is the next resource version. `specs` remembers the spec of every generation
      of the current incarnation; no code reads it. */
  datatype Server<Spec, Status> = Server(
    obj: Option<Object<Spec, Status>>,
    clock: nat,
    specs: map<nat, Spec>
  )

  /** What anybody but the reconciler may do to the object. */
  datatype UserEvent<Spec> =
    | Created(spec: Spec)
    | Edited(spec: Spec)
    | Deleted
    | ForeignFinalizer(held: bool)
    | Relabelled

  function Apply<Spec(==), Status>(sv: Server<Spec, Status>, e: UserEvent<Spec>, blank: Status): Server<Spec, Status> {
    match e
    case Created(spec) =>
      if sv.obj.Some? then sv
      else Server(Some(Object(sv.clock, sv.clock, 1, spec, false, false, false, blank)), sv.clock + 1, map[1 := spec])
    case Edited(spec) =>
      if sv.obj.None? || sv.obj.value.spec == spec then sv
      else
        var o := sv.obj.value;
        Server(Some(o.(version := sv.clock, generation := o.generation + 1, spec := spec)),
               sv.clock + 1, sv.specs[o.generation + 1 := spec])
    case Deleted =>
      if sv.obj.None? || sv.obj.value.deleting then sv
      else
        var o := sv.obj.value;
        if !o.ours && !o.foreign then sv.(obj := None)
        else
          Server(Some(o.(version := sv.clock, generation := o.generation + 1, deleting := true)),
                 sv.clock + 1, sv.specs[o.generation + 1 := o.spec])
    case ForeignFinalizer(held) =>
      if sv.obj.None? || sv.obj.value.foreign == held || (held && sv.obj.value.deleting) then sv
      else Settle(sv, sv.obj.value.(foreign := held))
    case Relabelled =>
      if sv.obj.None? then sv else Settle(sv, sv.obj.value)
  }

  /** Writes `o` back; a deleting object without finalizers disappears. */
  function Settle<Spec, Status>(sv: Server<Spec, Status>, o: Object<Spec, Status>): Server<Spec, Status> {
    if o.deleting && !o.ours && !o.foreign then sv.(obj := None)
    else sv.(obj := Some(o.(version := sv.clock)), clock := sv.clock + 1)
  }

  /** An Update is refused when anything was written since `copy` was read. */
  predicate Conflicts<Spec, Status>(sv: Server<Spec, Status>, copy: Object<Spec, Status>) {
    sv.obj.None? || sv.obj.value.version != copy.version
  }

  /** Update with our finalizer set to `held`: metadata and spec come from the copy, the
      status subresource stays as the server has it. */
  function Update<Spec, Status>(sv: Server<Spec, Status>, copy: Object<Spec, Status>, held: bool): Server<Spec, Status>
    requires !Conflicts(sv, copy)
  {
    Settle(sv, copy.(ours := held, status := sv.obj.value.status))
  }

  /** A status patch that turns the stored status into `status`. */
  function PutStatus<Spec, Status>(sv: Server<Spec, Status>, status: Status): Server<Spec, Status>
    requires sv.obj.Some?
  {
    sv.(obj := Some(sv.obj.value.(version := sv.clock, status := status)), clock := sv.clock + 1)
  }

  // ----- what every server keeps -----

  ghost predicate Sound<Spec, Status>(sv: Server<Spec, Status>) {
    sv.obj.Some? ==>
      var o := sv.obj.value;
      && o.version < sv.clock
      && o.uid < sv.clock
      && o.generation in sv.specs
      && sv.specs[o.generation] == o.spec
      && (o.deleting ==> o.ours || o.foreign)
      && forall g :: g in sv.specs ==> g <= o.generation
  }

  /** `copy` was read from the object that is there now, or from something older. */
  ghost predicate ReadFrom<Spec(!new), Status(!new)>(sv: Server<Spec, Status>, copy: Object<Spec, Status>) {
    && copy.version < sv.clock
    && (sv.obj.Some? && sv.obj.value.version == copy.version ==> sv.obj.value == copy)
  }

  /** The object read as `copy` still exists, in the same incarnation, with our finalizer,
      with the status it had, and with the spec of the copy on record. */
  ghost predicate Holds<Spec(!new), Status(!new)>(sv: Server<Spec, Status>, copy: Object<Spec, Status>) {
    && ReadFrom(sv, copy)
    && copy.ours
    && sv.obj.Some?
    && sv.obj.value.uid == copy.uid
    && sv.obj.value.ours
    && sv.obj.value.status == copy.status
    && (copy.deleting ==> sv.obj.value.deleting)
    && copy.generation <= sv.obj.value.generation
    && copy.generation in sv.specs
    && sv.specs[copy.generation] == copy.spec
  }

  /** Nobody else can take the object away or touch its status while our finalizer is on it. */
  lemma UserKeeps<Spec(!new), Status(!new)>(sv: Server<Spec, Status>, e: UserEvent<Spec>, blank: Status,
                                            copy: Object<Spec, Status>)
    requires Sound(sv)
    ensures Sound(Apply(sv, e, blank))
    ensures ReadFrom(sv, copy) ==> ReadFrom(Apply(sv, e, blank), copy)
    ensures Holds(sv, copy) ==> Holds(Apply(sv, e, blank), copy)
  {
  }

  /** What others can make of a server: a new object is blank, and an object that stays keeps
      its identity, its status, our finalizer and the record of its specs. */
  ghost predicate Evolves<Spec(!new), Status(!new)>(sv: Server<Spec, Status>, sv': Server<Spec, Status>,
                                                    blank: Status)
  {
    && Sound(sv')
    && sv.clock <= sv'.clock
    && (sv'.obj.Some? ==>
          var o' := sv'.obj.value;
          if sv.obj.None? then o'.status == blank && o'.generation == 1 && sv'.specs.Keys == {1}
          else
            && o'.uid == sv.obj.value.uid
            && o'.status == sv.obj.value.status
            && o'.ours == sv.obj.value.ours
            && (sv.obj.value.deleting ==> o'.deleting)
            && sv.obj.value.generation <= o'.generation
            && (forall g :: g in sv.specs ==> g in sv'.specs && sv'.specs[g] == sv.specs[g])
            && (forall g :: g in sv'.specs ==> g in sv.specs || g == sv.obj.value.generation + 1))
  }

  lemma UserEvolves<Spec(!new), Status(!new)>(sv: Server<Spec, Status>, e: UserEvent<Spec>, blank: Status)
    requires Sound(sv)
    ensures Evolves(sv, Apply(sv, e, blank), blank)
  {
  }

  /** A finalizer update that is not refused changes nothing but the finalizer. */
  lemma UpdateKeeps<Spec(!new), Status(!new)>(sv: Server<Spec, Status>, copy: Object<Spec, Status>, held: bool)
    requires Sound(sv) && ReadFrom(sv, copy) && !Conflicts(sv, copy)
    requires held ==> !copy.deleting
    requires !held ==> copy.deleting
    ensures Sound(Update(sv, copy, held))
    ensures Update(sv, copy, held).obj.None? <==> !held && !copy.foreign
    ensures Update(sv, copy, held).obj.Some? ==>
              Update(sv, copy, held).obj.value == sv.obj.value.(ours := held, version := sv.clock)
    ensures Update(sv, copy, held).specs == sv.specs
  {
  }
}
