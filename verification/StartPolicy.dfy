/** How a sandbox comes up: which snapshots `start` tries to restore, in which order, and when it
    boots afresh. What the pool holds and whether a restore goes through is left open.
 */
module StartPolicy {
  import opened Numbers
  import opened Templates
  import opened Wrappers

  const U32_MAX := 0xffff_ffff
  const U64_MAX := 0xffff_ffff_ffff_ffff

  const SNAPSHOT_TYPE := "kuasar.io/snapshot-type"
  const TEMPLATE_KEY := "kuasar.io/template-key"
  const TEMPLATE_ID := "kuasar.io/template-id"
  const POD_UID := "kuasar.io/pod-uid"
  const GENERATION := "kuasar.io/workload-generation"

  datatype Config = Config(pool: bool, store: bool, warmFork: bool, continuation: bool, environment: bool, fallback: bool) {
    predicate Configured() { pool || store }
    predicate ReadsIntent() { warmFork || continuation }
    predicate AnyRestore() { warmFork || continuation || environment }
  }

  type Annotations = map<string, string>

  datatype Identity = Identity(podUid: string, generation: nat)
  datatype Intent = Intent(explicitType: Option<SnapshotType>, identity: Option<Identity>,
                           templateId: Option<string>, templateKey: Option<string>)

  datatype Attempt =
    | RestoreContinuation(identity: Identity)
    | RestoreById(id: string, key: Option<string>)
    | RestoreByKey(userKey: string)
    | RestoreEnvironment

  datatype Outcome = Restored(from: Attempt, kind: SnapshotType) | ColdBoot | Refused

  /** The template an attempt acquires: a WarmFork or else an Environment one, under this key. */
  datatype Hit = Hit(forked: bool, key: string)

  /** What the pool has for an attempt, and whether restoring that goes through. */
  type Finds = Attempt -> Option<Hit>
  type Works = Attempt -> bool

  function Get(a: Annotations, key: string): Option<string> {
    if key in a then Some(a[key]) else None
  }

  /** `from_annotation`: the environment type cannot be asked for. */
  function FromAnnotation(v: string): Option<SnapshotType> {
    if v == "warm-fork" || v == "warm_fork" then Some(WarmFork)
    else if v == "continuation" then Some(Continuation)
    else None
  }

  /** The generation of a workload is 0 unless it says otherwise, and must fit 32 bits. */
  function ParseGeneration(a: Annotations): Option<nat> {
    if GENERATION !in a then Some(0)
    else match ParseUnsigned(a[GENERATION], U64_MAX)
      case Some(v) => if v <= U32_MAX then Some(v) else None
      case None => None
  }

  /** `parse_snapshot_intent`; `None` is an error. */
  method ParseIntent(cfg: Config, a: Annotations) returns (r: Option<Intent>)
    ensures r.None? <==> BadType(a) || (WantsContinuation(cfg, a) && ParseGeneration(a).None?)
    ensures r.Some? ==>
              && r.value.explicitType == (if SNAPSHOT_TYPE in a then FromAnnotation(a[SNAPSHOT_TYPE]) else None)
              && r.value.identity == (if WantsContinuation(cfg, a) then Some(IdentityOf(a)) else None)
              && (Explicit(a, Continuation) ==> r.value.templateId == None && r.value.templateKey == None)
              && (!Explicit(a, Continuation) ==>
                    r.value.templateId == Get(a, TEMPLATE_ID) && r.value.templateKey == Get(a, TEMPLATE_KEY))
  {
    var explicitType := None;
    if SNAPSHOT_TYPE in a {
      explicitType := FromAnnotation(a[SNAPSHOT_TYPE]);
      if explicitType.None? { return None; }
    }
    var templateId, templateKey := None, None;
    if explicitType != Some(Environment) && explicitType != Some(Continuation) {
      templateId, templateKey := Get(a, TEMPLATE_ID), Get(a, TEMPLATE_KEY);
    }
    var identity := None;
    if !(explicitType == Some(Environment) || explicitType == Some(WarmFork) || !cfg.continuation) && POD_UID in a {
      var generation := ParseGeneration(a);
      if generation.None? { return None; }
      identity := Some(Identity(a[POD_UID], generation.value));
    }
    return Some(Intent(explicitType, identity, templateId, templateKey));
  }

  predicate BadType(a: Annotations) {
    SNAPSHOT_TYPE in a && FromAnnotation(a[SNAPSHOT_TYPE]).None?
  }

  predicate Explicit(a: Annotations, t: SnapshotType) {
    SNAPSHOT_TYPE in a && FromAnnotation(a[SNAPSHOT_TYPE]) == Some(t)
  }

  /** The pod is a particular workload whose state is to be continued. */
  predicate WantsContinuation(cfg: Config, a: Annotations) {
    cfg.continuation && POD_UID in a && !Explicit(a, WarmFork) && !BadType(a)
  }

  function IdentityOf(a: Annotations): Identity {
    Identity(Get(a, POD_UID).GetOr(""), ParseGeneration(a).GetOr(0))
  }

  predicate WantsTemplate(a: Annotations) {
    TEMPLATE_ID in a || TEMPLATE_KEY in a
  }

  /** The template a pod asks for: by id if it gives one, else by key. */
  function TemplateAttempt(a: Annotations): Attempt {
    if TEMPLATE_ID in a then RestoreById(a[TEMPLATE_ID], Get(a, TEMPLATE_KEY))
    else RestoreByKey(Get(a, TEMPLATE_KEY).GetOr(""))
  }

  /** The kind of snapshot an attempt restores, if it does. It needs the pool or the store it restores
      from; a WarmFork template needs the warm-fork switch, whichever way it was found, an Environment
      template is not restored by id, and a key given with an id must match. */
  function RestoredKind(cfg: Config, finds: Finds, works: Works, t: Attempt): Option<SnapshotType> {
    if !works(t) then None
    else if t.RestoreContinuation? then if cfg.store then Some(Continuation) else None
    else if !cfg.pool || finds(t).None? then None
    else
      var hit := finds(t).value;
      if hit.forked && cfg.warmFork && (t.RestoreById? && t.key.Some? ==> hit.key == t.key.value) then Some(WarmFork)
      else if !hit.forked && !t.RestoreById? then Some(Environment)
      else None
  }

  /** What `start` makes of an attempt it returns from in any case. */
  function Final(cfg: Config, finds: Finds, works: Works, t: Attempt): Outcome {
    match RestoredKind(cfg, finds, works, t)
    case Some(k) => Restored(t, k)
    case None => Refused
  }

  predicate Succeeds(cfg: Config, finds: Finds, works: Works, t: Attempt) {
    RestoredKind(cfg, finds, works, t).Some?
  }

  /** `start_with_template_key`, up to the outcome of the restore; `None` is an error. */
  method StartWithTemplateKey(cfg: Config, finds: Finds, works: Works, t: Attempt) returns (r: Option<SnapshotType>)
    requires t.RestoreByKey? || t.RestoreEnvironment?
    ensures r == RestoredKind(cfg, finds, works, t)
    ensures r == Some(WarmFork) ==> cfg.warmFork
  {
    if !cfg.pool { return None; }
    var hit := finds(t);
    if hit.None? { return None; }
    if hit.value.forked && !cfg.warmFork { return None; }
    if !works(t) { return None; }
    return Some(if hit.value.forked then WarmFork else Environment);
  }

  /** `start_with_template_id`, likewise. */
  method StartWithTemplateId(cfg: Config, finds: Finds, works: Works, t: Attempt) returns (r: Option<SnapshotType>)
    requires t.RestoreById?
    ensures r == RestoredKind(cfg, finds, works, t)
    ensures r.Some? ==> r == Some(WarmFork) && cfg.warmFork
  {
    if !cfg.pool { return None; }
    var hit := finds(t);
    if hit.None? { return None; }
    if !hit.value.forked { return None; }
    if t.key.Some? && hit.value.key != t.key.value { return None; }
    if !cfg.warmFork { return None; }
    return if works(t) then Some(WarmFork) else None;
  }

  /** What an attempt comes to. */
  method Try(cfg: Config, finds: Finds, works: Works, t: Attempt) returns (r: Option<SnapshotType>)
    ensures r == RestoredKind(cfg, finds, works, t)
  {
    match t
    case RestoreContinuation(_) => return if cfg.store && works(t) then Some(Continuation) else None;
    case RestoreById(_, _) => r := StartWithTemplateId(cfg, finds, works, t);
    case _ => r := StartWithTemplateKey(cfg, finds, works, t);
  }

  /** Of the attempts made only the last may have worked. */
  predicate Tried(cfg: Config, finds: Finds, works: Works, tried: seq<Attempt>, out: Outcome) {
    && (forall i :: 0 <= i < |tried| - 1 ==> !Succeeds(cfg, finds, works, tried[i]))
    && (tried != [] ==> (Succeeds(cfg, finds, works, tried[|tried| - 1]) <==> out.Restored?))
    && (out.Restored? ==> tried != [] && out == Final(cfg, finds, works, tried[|tried| - 1]))
  }

  /** No snapshot that the pod must have, none that it may have, and leave to do without. */
  predicate BootsAfresh(cfg: Config, a: Annotations, finds: Finds, works: Works) {
    || !cfg.Configured()
    || (&& (cfg.ReadsIntent() ==> SNAPSHOT_TYPE !in a && !WantsContinuation(cfg, a)
                                  && !(WantsTemplate(a) && Succeeds(cfg, finds, works, TemplateAttempt(a))))
        && !(cfg.environment && Succeeds(cfg, finds, works, RestoreEnvironment))
        && (cfg.fallback || !cfg.AnyRestore()))
  }

  /** A pod that must continue: its workload's own snapshot or nothing. */
  predicate MustContinue(cfg: Config, a: Annotations) {
    cfg.Configured() && cfg.continuation && POD_UID in a && (SNAPSHOT_TYPE !in a || Explicit(a, Continuation))
  }

  /** A pod that asks for a warm-fork template by type. */
  predicate MustFork(cfg: Config, a: Annotations) {
    cfg.Configured() && cfg.ReadsIntent() && Explicit(a, WarmFork)
  }

  /** A pod that names a template without giving a type, and is not to be continued. */
  predicate MayFork(cfg: Config, a: Annotations) {
    cfg.Configured() && cfg.ReadsIntent() && SNAPSHOT_TYPE !in a && !WantsContinuation(cfg, a) && WantsTemplate(a)
  }

  /** A template key the pod gives alone, that is tried and finds an Environment template. */
  predicate KeyGivesEnvironment(cfg: Config, a: Annotations, finds: Finds, works: Works) {
    && (MayFork(cfg, a) || (MustFork(cfg, a) && cfg.warmFork && WantsTemplate(a)))
    && TEMPLATE_ID !in a
    && RestoredKind(cfg, finds, works, TemplateAttempt(a)) == Some(Environment)
  }

  /** `start`, up to the point where the sandbox is restored, refused or booted afresh. */
  method Start(cfg: Config, a: Annotations, finds: Finds, works: Works) returns (out: Outcome, tried: seq<Attempt>)
    ensures Tried(cfg, finds, works, tried, out)
    ensures out == ColdBoot <==> BootsAfresh(cfg, a, finds, works)
    ensures cfg.Configured() && cfg.AnyRestore() && !cfg.fallback ==> out != ColdBoot
    ensures MustContinue(cfg, a) ==>
              var t := RestoreContinuation(IdentityOf(a));
              tried <= [t] && out == if ParseGeneration(a).Some? then Final(cfg, finds, works, t) else Refused
    ensures MustFork(cfg, a) ==>
              var t := TemplateAttempt(a);
              tried <= [t] && out == if cfg.warmFork && WantsTemplate(a) then Final(cfg, finds, works, t) else Refused
    ensures MayFork(cfg, a) && Succeeds(cfg, finds, works, TemplateAttempt(a)) ==> out == Final(cfg, finds, works, TemplateAttempt(a))
    ensures out.Restored? && out.kind.WarmFork? ==> cfg.warmFork
    ensures !cfg.environment ==> (out.Restored? && out.kind.Environment? <==> KeyGivesEnvironment(cfg, a, finds, works))
  {
    tried := [];
    if !cfg.Configured() { return ColdBoot, tried; }
    if cfg.ReadsIntent() {
      var done;
      done, out, tried := StartIntended(cfg, a, finds, works);
      if done { return; }
    }
    out, tried := StartBare(cfg, finds, works, tried);
  }

  /** The first part, by what the annotations say; `done` unless the rest is to be tried. */
  method StartIntended(cfg: Config, a: Annotations, finds: Finds, works: Works) returns (done: bool, out: Outcome, tried: seq<Attempt>)
    requires cfg.Configured() && cfg.ReadsIntent()
    ensures !done <==> SNAPSHOT_TYPE !in a && !WantsContinuation(cfg, a) && !(WantsTemplate(a) && Succeeds(cfg, finds, works, TemplateAttempt(a)))
    ensures !done ==> forall i :: 0 <= i < |tried| ==> !Succeeds(cfg, finds, works, tried[i])
    ensures done ==> Tried(cfg, finds, works, tried, out) && out != ColdBoot && (out.Restored? ==> !out.from.RestoreEnvironment?)
    ensures MustContinue(cfg, a) ==>
              var t := RestoreContinuation(IdentityOf(a));
              done && tried <= [t] && out == if ParseGeneration(a).Some? then Final(cfg, finds, works, t) else Refused
    ensures MustFork(cfg, a) ==>
              var t := TemplateAttempt(a);
              done && tried <= [t] && out == if cfg.warmFork && WantsTemplate(a) then Final(cfg, finds, works, t) else Refused
    ensures MayFork(cfg, a) && Succeeds(cfg, finds, works, TemplateAttempt(a)) ==> out == Final(cfg, finds, works, TemplateAttempt(a))
    ensures done && out.Restored? && !out.kind.Continuation? ==>
              out.from == TemplateAttempt(a) && WantsTemplate(a) && (MayFork(cfg, a) || (MustFork(cfg, a) && cfg.warmFork))
  {
    tried := [];
    var intent := ParseIntent(cfg, a);
    if intent.None? { return true, Refused, tried; }
    if intent.value.explicitType.Some? {
      out, tried := StartExplicit(cfg, a, intent.value, finds, works);
      return true, out, tried;
    }
    if intent.value.identity.Some? {
      out, tried := TryOnly(cfg, RestoreContinuation(intent.value.identity.value), finds, works);
      return true, out, tried;
    }
    if intent.value.templateId.Some? || intent.value.templateKey.Some? {
      var t := Choose(intent.value);
      tried := [t];
      var r := Try(cfg, finds, works, t);
      if r.Some? { return true, Restored(t, r.value), tried; }
    }
    return false, Refused, tried;
  }

  /** The last part, for a pod without a snapshot of its own: the environment template, and a fresh boot
      if that is allowed. */
  method StartBare(cfg: Config, finds: Finds, works: Works, before: seq<Attempt>) returns (out: Outcome, tried: seq<Attempt>)
    requires cfg.Configured() && forall i :: 0 <= i < |before| ==> !Succeeds(cfg, finds, works, before[i])
    ensures Tried(cfg, finds, works, tried, out) && before <= tried
    ensures out == ColdBoot <==> !(cfg.environment && Succeeds(cfg, finds, works, RestoreEnvironment)) && (cfg.fallback || !cfg.AnyRestore())
    ensures out.Restored? ==> cfg.environment && out.from == RestoreEnvironment
  {
    tried := before;
    if cfg.environment && cfg.pool {
      tried := tried + [RestoreEnvironment];
      var r := Try(cfg, finds, works, RestoreEnvironment);
      if r.Some? { return Restored(RestoreEnvironment, r.value), tried; }
    }
    if cfg.AnyRestore() && !cfg.fallback { return Refused, tried; }
    return ColdBoot, tried;
  }

  /** The branches for an explicit snapshot type. */
  method StartExplicit(cfg: Config, a: Annotations, intent: Intent, finds: Finds, works: Works)
    returns (out: Outcome, tried: seq<Attempt>)
    requires cfg.ReadsIntent() && SNAPSHOT_TYPE in a && intent.explicitType == FromAnnotation(a[SNAPSHOT_TYPE]) != None
    requires intent.identity == if WantsContinuation(cfg, a) then Some(IdentityOf(a)) else None
    requires Explicit(a, WarmFork) ==>
               intent.templateId == Get(a, TEMPLATE_ID) && intent.templateKey == Get(a, TEMPLATE_KEY)
    ensures Tried(cfg, finds, works, tried, out) && out != ColdBoot
    ensures out.Restored? ==> !out.from.RestoreEnvironment?
    ensures Explicit(a, Continuation) ==>
              var t := RestoreContinuation(IdentityOf(a));
              tried <= [t] && out == if WantsContinuation(cfg, a) then Final(cfg, finds, works, t) else Refused
    ensures Explicit(a, WarmFork) ==>
              var t := TemplateAttempt(a);
              tried <= [t] && out == if cfg.warmFork && WantsTemplate(a) then Final(cfg, finds, works, t) else Refused
  {
    if intent.explicitType == Some(Continuation) {
      if !cfg.continuation { return Refused, []; }
      if intent.identity.None? { return Refused, []; }
      out, tried := TryOnly(cfg, RestoreContinuation(intent.identity.value), finds, works);
      return;
    }
    if !cfg.warmFork { return Refused, []; }
    if intent.templateId.None? && intent.templateKey.None? { return Refused, []; }
    var t := Choose(intent);
    out, tried := TryOnly(cfg, t, finds, works);
  }

  method TryOnly(cfg: Config, t: Attempt, finds: Finds, works: Works) returns (out: Outcome, tried: seq<Attempt>)
    ensures tried == [t] && Tried(cfg, finds, works, tried, out) && out == Final(cfg, finds, works, t)
  {
    var r := Try(cfg, finds, works, t);
    out, tried := match r case Some(k) => Restored(t, k) case None => Refused, [t];
  }

  method Choose(intent: Intent) returns (t: Attempt)
    requires intent.templateId.Some? || intent.templateKey.Some?
    ensures intent.templateId.Some? ==> t == RestoreById(intent.templateId.value, intent.templateKey)
    ensures intent.templateId.None? ==> t == RestoreByKey(intent.templateKey.value)
  {
    match (intent.templateId, intent.templateKey)
    case (Some(id), key) => t := RestoreById(id, key);
    case (None, key) => t := RestoreByKey(key.value);
  }

  /** With environment restore off, a key that a WarmFork pod names still restores an Environment template
      if that is what the key finds. */
  lemma {:induction false} SwitchedOffButRestored()
    ensures var cfg := Config(true, false, true, false, false, false);
            var a := map[SNAPSHOT_TYPE := "warm-fork", TEMPLATE_KEY := "k"];
            !cfg.environment && KeyGivesEnvironment(cfg, a, (_: Attempt) => Some(Hit(false, "k")), (_: Attempt) => true)
  {
    assert FromAnnotation("warm-fork") == Some(WarmFork);
  }
}
