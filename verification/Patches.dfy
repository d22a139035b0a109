/** The wire form of the mutations: the JSON patches of the marker protocol and the merge patch of the node cordon do
    exactly what the typed stores of PodStore and Cordon let them do. */
module Patches {
  import opened Common
  import PodStore
  import Cordon

  datatype Json = Null | Bool(b: bool) | Str(s: string) | Arr(items: seq<Json>) | Obj(fields: map<string, Json>)

  // ----- JSON Pointer (section 3 and 4 of RFC 6901) -----

  function Front<T>(s: seq<T>): seq<T>
    requires s != []
  {
    s[..|s| - 1]
  }

  /** The reference token written as `s`; an escape other than ~0 and ~1 is an error. */
  function Unescape(s: string): Option<string> {
    if s == [] then Some([])
    else if s[0] == '~' then
      if |s| == 1 || s[1] !in ['0', '1'] then None
      else
        var rest := Unescape(s[2..]);
        if rest.None? then None else Some([if s[1] == '0' then '~' else '/'] + rest.value)
    else
      var rest := Unescape(s[1..]);
      if rest.None? then None else Some([s[0]] + rest.value)
  }

  function Escape(s: string): string {
    if s == [] then [] else (if s[0] == '~' then "~0" else if s[0] == '/' then "~1" else [s[0]]) + Escape(s[1..])
  }

  /** The text up to the next slash. */
  function Segment(s: string): string { if s == [] || s[0] == '/' then [] else [s[0]] + Segment(s[1..]) }

  lemma {:induction false} SegmentFits(s: string)
    ensures |Segment(s)| <= |s| && (|Segment(s)| < |s| ==> s[|Segment(s)|] == '/')
  {
    if s != [] && s[0] != '/' {
      SegmentFits(s[1..]);
    }
  }

  function Tokens(pointer: string): Option<seq<string>>
    decreases |pointer|
  {
    if pointer == [] then Some([])
    else if pointer[0] != '/' then None
    else
      var segment := Segment(pointer[1..]);
      SegmentFits(pointer[1..]);
      var token, rest := Unescape(segment), Tokens(pointer[1 + |segment|..]);
      if token.None? || rest.None? then None else Some([token.value] + rest.value)
  }

  function Pointer(tokens: seq<string>): string {
    if tokens == [] then [] else "/" + Escape(tokens[0]) + Pointer(tokens[1..])
  }

  lemma {:induction false} EscapeRoundTrip(s: string)
    ensures Unescape(Escape(s)) == Some(s)
    ensures '/' !in Escape(s)
  {
    if s != [] {
      EscapeRoundTrip(s[1..]);
      var head := if s[0] == '~' then "~0" else if s[0] == '/' then "~1" else [s[0]];
      assert Escape(s) == head + Escape(s[1..]);
      assert (head + Escape(s[1..]))[|head|..] == Escape(s[1..]);
      assert [s[0]] + s[1..] == s;
    }
  }

  lemma {:induction false} SegmentOf(a: string, rest: string)
    requires '/' !in a && (rest == [] || rest[0] == '/')
    ensures Segment(a + rest) == a
  {
    if a == [] {
      assert a + rest == rest;
    } else {
      assert (a + rest)[1..] == a[1..] + rest;
      assert forall c | c in a[1..] :: c in a;
      SegmentOf(a[1..], rest);
    }
  }

  lemma FirstToken(segment: string, rest: string)
    requires '/' !in segment && (rest == [] || rest[0] == '/')
    ensures Tokens("/" + (segment + rest)) ==
            if Unescape(segment).None? || Tokens(rest).None? then None else Some([Unescape(segment).value] + Tokens(rest).value)
  {
    var p := "/" + (segment + rest);
    SegmentOf(segment, rest);
    assert p[0] == '/' && p[1..] == segment + rest && p[1 + |segment|..] == rest;
  }

  lemma PointerStart(tokens: seq<string>)
    ensures Pointer(tokens) == [] || Pointer(tokens)[0] == '/'
    ensures tokens != [] ==> Pointer(tokens) == "/" + (Escape(tokens[0]) + Pointer(tokens[1..]))
  {
    if tokens != [] {
      Assoc("/", Escape(tokens[0]), Pointer(tokens[1..]));
    }
  }

  /** Any path of member names can be written as a pointer and reads back as that path. */
  lemma {:induction false} PointerRoundTrip(tokens: seq<string>)
    ensures Tokens(Pointer(tokens)) == Some(tokens)
  {
    if tokens != [] {
      PointerRoundTrip(tokens[1..]);
      EscapeRoundTrip(tokens[0]);
      PointerStart(tokens);
      PointerStart(tokens[1..]);
      FirstToken(Escape(tokens[0]), Pointer(tokens[1..]));
      assert [tokens[0]] + tokens[1..] == tokens;
    }
  }

  // ----- JSON Patch (sections 4.1, 4.2, 4.6 and 5 of RFC 6902), on object members -----

  datatype Op = Test(path: string, value: Json) | Add(path: string, value: Json) | Remove(path: string)

  function Get(doc: Json, path: seq<string>): Option<Json> {
    if path == [] then Some(doc)
    else if doc.Obj? && path[0] in doc.fields then Get(doc.fields[path[0]], path[1..])
    else None
  }

  /** Set or replace a member; its parent must exist. */
  function Put(doc: Json, path: seq<string>, value: Json): Option<Json>
    decreases |path|
  {
    if path == [] then Some(value)
    else if !doc.Obj? then None
    else if |path| == 1 then Some(Obj(doc.fields[path[0] := value]))
    else if path[0] !in doc.fields then None
    else
      var child := Put(doc.fields[path[0]], path[1..], value);
      if child.None? then None else Some(Obj(doc.fields[path[0] := child.value]))
  }

  /** Remove a member, which must exist. */
  function Drop(doc: Json, path: seq<string>): Option<Json>
    decreases |path|
  {
    if path == [] || !doc.Obj? || path[0] !in doc.fields then None
    else if |path| == 1 then Some(Obj(doc.fields - {path[0]}))
    else
      var child := Drop(doc.fields[path[0]], path[1..]);
      if child.None? then None else Some(Obj(doc.fields[path[0] := child.value]))
  }

  function ApplyOp(doc: Json, op: Op): Option<Json> {
    var path := Tokens(op.path);
    if path.None? then None
    else match op
      case Test(_, value) => if Get(doc, path.value) == Some(value) then Some(doc) else None
      case Add(_, value) => Put(doc, path.value, value)
      case Remove(_) => Drop(doc, path.value)
  }

  /** All or nothing: one failing operation fails the whole patch. */
  function Apply(doc: Json, ops: seq<Op>): Option<Json>
    decreases |ops|
  {
    if ops == [] then Some(doc)
    else
      var next := ApplyOp(doc, ops[0]);
      if next.None? then None else Apply(next.value, ops[1..])
  }

  // ----- merge patch (section 2 of RFC 7396) -----

  function MergePatch(target: Json, patch: Json): Json
    decreases patch
  {
    match patch
    case Obj(changes) =>
      var base := if target.Obj? then target.fields else map[];
      Obj(map k | k in base.Keys + changes.Keys && !(k in changes && changes[k].Null?) ::
            if k in changes then MergePatch(if k in base then base[k] else Null, changes[k]) else base[k])
    case _ => patch
  }

  // ----- pods on the wire -----

  function KeyName(key: PodStore.Key): string {
    match key
    case RollingUpdate => ROLLING_UPDATE
    case MarkedBy => MARKED_BY
    case Other(name) => name
  }

  function KeyOf(name: string): PodStore.Key {
    if name == ROLLING_UPDATE then PodStore.RollingUpdate else if name == MARKED_BY then PodStore.MarkedBy else PodStore.Other(name)
  }

  /** How numbers are written, and every member of the object that the marker protocol does not look at. */
  datatype Wire = Wire(text: nat -> string, meta: map<string, Json>, top: map<string, Json>) {
    ghost predicate Valid() { forall a: nat, b: nat :: text(a) == text(b) ==> a == b }
  }

  /** A map with its keys written as names. */
  function Rename<K(==)>(m: map<K, string>, name: K -> string, key: string -> K): map<string, Json> {
    map n | n in (set k | k in m :: name(k)) && key(n) in m :: Str(m[key(n)])
  }

  function EncodeNotes(notes: PodStore.Notes): Json { Obj(Rename(notes, KeyName, KeyOf)) }

  function Identity(wire: Wire, uid: nat, rv: nat): map<string, Json> {
    (wire.meta["uid" := Str(wire.text(uid))]["resourceVersion" := Str(wire.text(rv))]) - {"annotations"}
  }

  function EncodeMeta(wire: Wire, p: PodStore.Pod): Json {
    var identity := Identity(wire, p.uid, p.rv);
    Obj(if p.notes.Some? then identity["annotations" := EncodeNotes(p.notes.value)] else identity)
  }

  function EncodePod(wire: Wire, p: PodStore.Pod): Json { Obj(wire.top["metadata" := EncodeMeta(wire, p)]) }

  const UID_PATH := "/metadata/uid"

  const VERSION_PATH := "/metadata/resourceVersion"

  const ANNOTATIONS_PATH := "/metadata/annotations"

  const ANNOTATION_PREFIX := "/metadata/annotations/"

  const MARKED_BY_PATH := "/metadata/annotations/k8s-rollout-restart~1marked-by"

  /** The pointers the patches are written with. */
  datatype Paths = Paths(uid: string, version: string, annotations: string, marker: string, owner: string)

  const PATHS := Paths(UID_PATH, VERSION_PATH, ANNOTATIONS_PATH, ANNOTATION_PREFIX + ROLLING_UPDATE, MARKED_BY_PATH)

  /** The operations that mark a pod that was read as `target`. */
  function MarkOps(paths: Paths, wire: Wire, run: string, target: PodStore.Pod): seq<Op> {
    [Test(paths.uid, Str(wire.text(target.uid))), Test(paths.version, Str(wire.text(target.rv)))] +
    if target.notes.None? then [Add(paths.annotations, Obj(map[ROLLING_UPDATE := Str("true"), MARKED_BY := Str(run)]))]
    else [Add(paths.marker, Str("true")), Add(paths.owner, Str(run))]
  }

  /** The operations that remove this run's marker from a pod that was read as `target`. */
  function UnmarkOps(paths: Paths, wire: Wire, run: string, target: PodStore.Pod): seq<Op> {
    [Test(paths.uid, Str(wire.text(target.uid))), Test(paths.owner, Str(run))] +
    (if target.Has(PodStore.RollingUpdate) then [Remove(paths.marker)] else []) +
    [Remove(paths.owner)]
  }

  // ----- where the paths lead -----

  predicate NoEscape(s: string) { forall i | 0 <= i < |s| :: s[i] != '/' && s[i] != '~' }

  lemma {:induction false} EscapeNothing(s: string)
    requires NoEscape(s)
    ensures Escape(s) == s
  {
    if s != [] {
      EscapeNothing(s[1..]);
      assert s == [s[0]] + s[1..];
    }
  }

  lemma {:induction false} EscapeBoth(s: string, t: string)
    ensures Escape(s + t) == Escape(s) + Escape(t)
  {
    if s == [] {
      assert s + t == t;
    } else {
      var head := if s[0] == '~' then "~0" else if s[0] == '/' then "~1" else [s[0]];
      EscapeBoth(s[1..], t);
      assert (s + t)[1..] == s[1..] + t;
      assert head + (Escape(s[1..]) + Escape(t)) == head + Escape(s[1..]) + Escape(t);
    }
  }

  lemma PointerOfTwo(a: string, b: string)
    requires NoEscape(a)
    ensures Tokens("/" + a + "/" + Escape(b)) == Some([a, b])
  {
    EscapeNothing(a);
    PointerRoundTrip([a, b]);
    assert [a, b][1..] == [b] && [b][1..] == [];
    assert Pointer([b]) == "/" + Escape(b) + [] == "/" + Escape(b);
    assert "/" + a + ("/" + Escape(b)) == "/" + a + "/" + Escape(b);
  }

  lemma PointerOfThree(a: string, b: string, c: string)
    requires NoEscape(a) && NoEscape(b)
    ensures Tokens("/" + a + "/" + b + "/" + Escape(c)) == Some([a, b, c])
  {
    EscapeNothing(a);
    EscapeNothing(b);
    PointerRoundTrip([a, b, c]);
    assert [a, b, c][1..] == [b, c] && [b, c][1..] == [c] && [c][1..] == [];
    assert Pointer([c]) == "/" + Escape(c) + [] == "/" + Escape(c);
    assert Pointer([b, c]) == "/" + b + Pointer([c]);
    assert "/" + a + ("/" + b + ("/" + Escape(c))) == "/" + a + "/" + b + "/" + Escape(c);
  }

  lemma MemberPath(meta: string, member: string, path: string)
    requires NoEscape(meta) && NoEscape(member) && path == "/" + meta + "/" + member
    ensures Tokens(path) == Some([meta, member])
  {
    EscapeNothing(member);
    PointerOfTwo(meta, member);
  }

  lemma NotePath(meta: string, notes: string, key: string, path: string)
    requires NoEscape(meta) && NoEscape(notes) && path == "/" + meta + "/" + notes + "/" + Escape(key)
    ensures Tokens(path) == Some([meta, notes, key])
  {
    PointerOfThree(meta, notes, key);
  }

  lemma UidText(meta: string, member: string, path: string)
    requires meta == "metadata" && member == "uid" && path == "/metadata/uid"
    ensures NoEscape(meta) && NoEscape(member) && path == "/" + meta + "/" + member
  {
  }

  lemma VersionText(meta: string, member: string, path: string)
    requires meta == "metadata" && member == "resourceVersion" && path == "/metadata/resourceVersion"
    ensures NoEscape(meta) && NoEscape(member) && path == "/" + meta + "/" + member
  {
  }

  lemma AnnotationsText(meta: string, member: string, path: string)
    requires meta == "metadata" && member == "annotations" && path == "/metadata/annotations"
    ensures NoEscape(meta) && NoEscape(member) && path == "/" + meta + "/" + member
  {
  }

  lemma PrefixText(meta: string, member: string, prefix: string)
    requires meta == "metadata" && member == "annotations" && prefix == ANNOTATION_PREFIX
    ensures NoEscape(meta) && NoEscape(member) && prefix == "/" + meta + "/" + member + "/"
  {
  }

  lemma MarkerText(a: string, b: string)
    requires a == "zalando-postgres-operator-" && b == "rolling-update-required"
    ensures NoEscape(a) && NoEscape(b)
  {
  }

  lemma OwnerText(a: string, b: string, key: string)
    requires a == "k8s-rollout-restart" && b == "marked-by" && key == MARKED_BY
    ensures NoEscape(a) && NoEscape(b) && key == a + ("/" + b)
  {
  }

  lemma OwnerPathText(a: string, b: string, prefix: string, path: string)
    requires a == "k8s-rollout-restart" && b == "marked-by" && prefix == ANNOTATION_PREFIX && path == MARKED_BY_PATH
    ensures path == prefix + (a + ("~1" + b))
  {
  }

  lemma EscapedSlash(a: string, b: string)
    requires NoEscape(a) && NoEscape(b)
    ensures Escape(a + b) == a + b
    ensures Escape(a + ("/" + b)) == a + ("~1" + b)
  {
    EscapeNothing(a);
    EscapeNothing(b);
    EscapeBoth(a, b);
    EscapeBoth(a, "/" + b);
    EscapeBoth("/", b);
    assert Escape("/") == "~1" + Escape("") == "~1";
  }

  /** Where the pointers of the marker protocol lead. */
  ghost predicate Lead(paths: Paths) {
    && Tokens(paths.uid) == Some(["metadata", "uid"])
    && Tokens(paths.version) == Some(["metadata", "resourceVersion"])
    && Tokens(paths.annotations) == Some(["metadata", "annotations"])
    && Tokens(paths.marker) == Some(["metadata", "annotations", ROLLING_UPDATE])
    && Tokens(paths.owner) == Some(["metadata", "annotations", MARKED_BY])
  }

  lemma MetadataPathsLead(meta: string, paths: Paths)
    requires meta == "metadata" && paths == PATHS
    ensures Tokens(paths.uid) == Some([meta, "uid"])
    ensures Tokens(paths.version) == Some([meta, "resourceVersion"])
    ensures Tokens(paths.annotations) == Some([meta, "annotations"])
  {
    UidText(meta, "uid", paths.uid);
    MemberPath(meta, "uid", paths.uid);
    VersionText(meta, "resourceVersion", paths.version);
    MemberPath(meta, "resourceVersion", paths.version);
    AnnotationsText(meta, "annotations", paths.annotations);
    MemberPath(meta, "annotations", paths.annotations);
  }

  lemma MarkerPathLeads(meta: string, notes: string, prefix: string, key: string, head: string, tail: string)
    requires meta == "metadata" && notes == "annotations" && prefix == ANNOTATION_PREFIX && key == ROLLING_UPDATE
    requires head == "zalando-postgres-operator-" && tail == "rolling-update-required"
    ensures Tokens(prefix + key) == Some([meta, notes, key])
  {
    PrefixText(meta, notes, prefix);
    MarkerText(head, tail);
    MarkerParts(head, tail);
    EscapedSlash(head, tail);
    NotePath(meta, notes, key, prefix + key);
  }

  /** The escaped slash leads to exactly the marked-by annotation. */
  lemma OwnerPathLeads(meta: string, notes: string, prefix: string, key: string, path: string, head: string,
                       tail: string)
    requires meta == "metadata" && notes == "annotations" && prefix == ANNOTATION_PREFIX && key == MARKED_BY && path == MARKED_BY_PATH
    requires head == "k8s-rollout-restart" && tail == "marked-by"
    ensures Tokens(path) == Some([meta, notes, key])
  {
    PrefixText(meta, notes, prefix);
    OwnerText(head, tail, key);
    OwnerPathText(head, tail, prefix, path);
    EscapedSlash(head, tail);
    NotePath(meta, notes, key, path);
  }

  lemma SourcePathsLead(paths: Paths)
    requires paths == PATHS
    ensures Lead(paths)
  {
    MetadataPathsLead("metadata", paths);
    MarkerPathLeads("metadata", "annotations", ANNOTATION_PREFIX, ROLLING_UPDATE, "zalando-postgres-operator-", "rolling-update-required");
    OwnerPathLeads("metadata", "annotations", ANNOTATION_PREFIX, MARKED_BY, paths.owner, "k8s-rollout-restart", "marked-by");
  }

  // ----- what the patches do to an encoded pod -----

  lemma RenameFields<K>(m: map<K, string>, name: K -> string, key: string -> K)
    requires forall n :: name(key(n)) == n
    ensures forall n :: n in Rename(m, name, key) <==> key(n) in m
  {
    forall n | key(n) in m
      ensures n in Rename(m, name, key)
    {
      assert name(key(n)) == n;
    }
  }

  lemma RenameAdded<K>(m: map<K, string>, name: K -> string, key: string -> K, k: K, value: string)
    requires forall n :: name(key(n)) == n
    requires key(name(k)) == k
    ensures Rename(m[k := value], name, key) == Rename(m, name, key)[name(k) := Str(value)]
  {
    RenameFields(m, name, key);
    RenameFields(m[k := value], name, key);
    assert forall n :: key(n) == k <==> n == name(k);
  }

  lemma RenameRemoved<K>(m: map<K, string>, name: K -> string, key: string -> K, k: K)
    requires forall n :: name(key(n)) == n
    requires key(name(k)) == k
    ensures Rename(m - {k}, name, key) == Rename(m, name, key) - {name(k)}
  {
    RenameFields(m, name, key);
    RenameFields(m - {k}, name, key);
    assert forall n :: key(n) == k <==> n == name(k);
  }

  lemma NoteNames()
    ensures forall n :: KeyName(KeyOf(n)) == n
  {
  }

  lemma NotesFields(notes: PodStore.Notes)
    ensures forall n :: n in EncodeNotes(notes).fields <==> KeyOf(n) in notes
  {
    NoteNames();
    RenameFields(notes, KeyName, KeyOf);
  }

  lemma NoteAdded(notes: PodStore.Notes, key: PodStore.Key, value: string)
    requires KeyOf(KeyName(key)) == key
    ensures EncodeNotes(notes[key := value]) == Obj(EncodeNotes(notes).fields[KeyName(key) := Str(value)])
  {
    NoteNames();
    RenameAdded(notes, KeyName, KeyOf, key, value);
  }

  lemma NoteRemoved(notes: PodStore.Notes, key: PodStore.Key)
    requires KeyOf(KeyName(key)) == key
    ensures EncodeNotes(notes - {key}) == Obj(EncodeNotes(notes).fields - {KeyName(key)})
  {
    NoteNames();
    RenameRemoved(notes, KeyName, KeyOf, key);
  }

  lemma PutTwice<K, V>(m: map<K, V>, k: K, a: V, b: V)
    ensures m[k := a][k := b] == m[k := b]
  {
  }

  lemma MetaOnly(wire: Wire, p: PodStore.Pod, notes: PodStore.Notes)
    ensures EncodeMeta(wire, p.(notes := Some(notes))) == Obj(EncodeMeta(wire, p).fields["annotations" := EncodeNotes(notes)])
  {
    if p.notes.Some? {
      PutTwice(Identity(wire, p.uid, p.rv), "annotations", EncodeNotes(p.notes.value), EncodeNotes(notes));
    }
  }

  /** The pod's encoding with other annotations. */
  lemma MetaUpdate(wire: Wire, p: PodStore.Pod, notes: PodStore.Notes)
    ensures EncodeMeta(wire, p.(notes := Some(notes))) == Obj(EncodeMeta(wire, p).fields["annotations" := EncodeNotes(notes)])
    ensures EncodePod(wire, p.(notes := Some(notes))) ==
            Obj(EncodePod(wire, p).fields["metadata" := Obj(EncodeMeta(wire, p).fields["annotations" := EncodeNotes(notes)])])
  {
    MetaOnly(wire, p, notes);
    PutTwice(wire.top, "metadata", EncodeMeta(wire, p), EncodeMeta(wire, p.(notes := Some(notes))));
  }

  lemma TestsRead(wire: Wire, p: PodStore.Pod)
    ensures Get(EncodePod(wire, p), ["metadata", "uid"]) == Some(Str(wire.text(p.uid)))
    ensures Get(EncodePod(wire, p), ["metadata", "resourceVersion"]) == Some(Str(wire.text(p.rv)))
  {
    var meta := EncodeMeta(wire, p);
    assert ["metadata", "uid"][1..] == ["uid"] && ["metadata", "resourceVersion"][1..] == ["resourceVersion"];
    assert Get(meta, ["uid"]) == Some(Str(wire.text(p.uid)));
    assert Get(meta, ["resourceVersion"]) == Some(Str(wire.text(p.rv)));
  }

  lemma GetMember(doc: Json, name: string)
    requires doc.Obj?
    ensures Get(doc, [name]) == if name in doc.fields then Some(doc.fields[name]) else None
  {
    assert [name][1..] == [];
  }

  lemma NoteRead(wire: Wire, p: PodStore.Pod, name: string)
    ensures Get(EncodePod(wire, p), ["metadata", "annotations", name]) ==
            if p.Has(KeyOf(name)) then Some(Str(p.Get(KeyOf(name)).value)) else None
  {
    var path := ["metadata", "annotations", name];
    assert path[1..] == ["annotations", name] && ["annotations", name][1..] == [name] && [name][1..] == [];
    var meta := EncodeMeta(wire, p);
    assert Get(EncodePod(wire, p), path) == Get(meta, ["annotations", name]);
    if p.notes.Some? {
      NotesFields(p.notes.value);
      assert Get(meta, ["annotations", name]) == Get(EncodeNotes(p.notes.value), [name]);
      GetMember(EncodeNotes(p.notes.value), name);
      assert p.Has(KeyOf(name)) ==> EncodeNotes(p.notes.value).fields[name] == Str(p.notes.value[KeyOf(name)]);
    }
  }

  lemma AnnotationsPut(wire: Wire, p: PodStore.Pod, notes: PodStore.Notes)
    ensures Put(EncodePod(wire, p), ["metadata", "annotations"], EncodeNotes(notes)) == Some(EncodePod(wire, p.(notes := Some(notes))))
  {
    assert ["metadata", "annotations"][1..] == ["annotations"];
    MetaUpdate(wire, p, notes);
    assert Put(EncodeMeta(wire, p), ["annotations"], EncodeNotes(notes)) == Some(Obj(EncodeMeta(wire, p).fields["annotations" := EncodeNotes(notes)]));
  }

  lemma NotePut(wire: Wire, p: PodStore.Pod, key: PodStore.Key, value: string)
    requires KeyOf(KeyName(key)) == key
    ensures Put(EncodePod(wire, p), ["metadata", "annotations", KeyName(key)], Str(value)) ==
            if p.notes.Some? then Some(EncodePod(wire, p.(notes := Some(p.notes.value[key := value])))) else None
  {
    var name := KeyName(key);
    assert ["metadata", "annotations", name][1..] == ["annotations", name] && ["annotations", name][1..] == [name];
    var meta := EncodeMeta(wire, p);
    if p.notes.Some? {
      NoteAdded(p.notes.value, key, value);
      MetaUpdate(wire, p, p.notes.value[key := value]);
      assert Put(meta.fields["annotations"], [name], Str(value)) == Some(EncodeNotes(p.notes.value[key := value]));
    }
    assert Put(meta, ["annotations", name], Str(value)) ==
           if p.notes.Some? then Some(Obj(meta.fields["annotations" := EncodeNotes(p.notes.value[key := value])])) else None;
  }

  lemma DropDeep(doc: Json, a: string, b: string, c: string)
    requires doc.Obj? && a in doc.fields && doc.fields[a].Obj?
    ensures Drop(doc, [a, b, c]) ==
            var inner := Drop(doc.fields[a], [b, c]);
            if inner.None? then None else Some(Obj(doc.fields[a := inner.value]))
  {
    assert [a, b, c][1..] == [b, c];
  }

  lemma DropMember(doc: Json, b: string, c: string)
    requires doc.Obj?
    ensures Drop(doc, [b, c]) ==
            if b !in doc.fields || !doc.fields[b].Obj? || c !in doc.fields[b].fields then None
            else Some(Obj(doc.fields[b := Obj(doc.fields[b].fields - {c})]))
  {
    assert [b, c][1..] == [c];
  }

  lemma NoteDrop(wire: Wire, p: PodStore.Pod, key: PodStore.Key)
    requires KeyOf(KeyName(key)) == key
    ensures Drop(EncodePod(wire, p), ["metadata", "annotations", KeyName(key)]) ==
            if p.Has(key) then Some(EncodePod(wire, p.(notes := Some(p.notes.value - {key})))) else None
  {
    DropDeep(EncodePod(wire, p), "metadata", "annotations", KeyName(key));
    DropMember(EncodeMeta(wire, p), "annotations", KeyName(key));
    if p.notes.Some? {
      NotesFields(p.notes.value);
    }
    if p.Has(key) {
      NoteRemoved(p.notes.value, key);
      MetaUpdate(wire, p, p.notes.value - {key});
    }
  }

  // ----- the patches mean the typed mutations -----

  lemma ApplyFirst(doc: Json, op: Op, rest: seq<Op>)
    ensures Apply(doc, [op] + rest) == if ApplyOp(doc, op).None? then None else Apply(ApplyOp(doc, op).value, rest)
    ensures Apply(doc, []) == Some(doc)
  {
    assert ([op] + rest)[1..] == rest;
  }

  lemma BothNotes(run: string, both: PodStore.Notes)
    requires both == map[PodStore.RollingUpdate := "true", PodStore.MarkedBy := run]
    ensures EncodeNotes(both) == Obj(map[ROLLING_UPDATE := Str("true"), MARKED_BY := Str(run)])
  {
    NoteAdded(map[], PodStore.RollingUpdate, "true");
    NoteAdded(map[PodStore.RollingUpdate := "true"], PodStore.MarkedBy, run);
    assert Rename(map[], KeyName, KeyOf) == map[];
  }

  lemma LateMarkOps(paths: Paths, wire: Wire, run: string, p: PodStore.Pod, target: PodStore.Pod, late: seq<Op>)
    requires Lead(paths) && late == MarkOps(paths, wire, run, target)[2..]
    ensures Apply(EncodePod(wire, p), late) ==
            if target.notes.Some? ==> p.notes.Some? then Some(EncodePod(wire, PodStore.MarkEffect(run, p, target))) else None
  {
    var doc := EncodePod(wire, p);
    if target.notes.None? {
      var both: PodStore.Notes := map[PodStore.RollingUpdate := "true", PodStore.MarkedBy := run];
      BothNotes(run, both);
      AnnotationsPut(wire, p, both);
      ApplyFirst(doc, late[0], []);
      assert late == [late[0]] + [];
      ApplyFirst(EncodePod(wire, p.(notes := Some(both))), late[0], []);
    } else {
      var marker, owner := Add(paths.marker, Str("true")), Add(paths.owner, Str(run));
      assert late == [marker] + ([owner] + []);
      NotePut(wire, p, PodStore.RollingUpdate, "true");
      ApplyFirst(doc, marker, [owner] + []);
      if p.notes.Some? {
        var q := p.(notes := Some(p.notes.value[PodStore.RollingUpdate := "true"]));
        NotePut(wire, q, PodStore.MarkedBy, run);
        ApplyFirst(EncodePod(wire, q), owner, []);
        ApplyFirst(EncodePod(wire, PodStore.MarkEffect(run, p, target)), owner, []);
      }
    }
  }

  /** The marking patch, as sent, has exactly the typed tests and effect: it fails as a whole unless UID and version are
      those of the pod that was read, and otherwise only sets the two annotations. */
  lemma MarkPatchMeansMark(paths: Paths, wire: Wire, run: string, p: PodStore.Pod, target: PodStore.Pod)
    requires Lead(paths) && wire.Valid()
    ensures Apply(EncodePod(wire, p), MarkOps(paths, wire, run, target)) ==
            if PodStore.MarkTests(p, target) then Some(EncodePod(wire, PodStore.MarkEffect(run, p, target))) else None
  {
    var doc := EncodePod(wire, p);
    var uid, version := Test(paths.uid, Str(wire.text(target.uid))), Test(paths.version, Str(wire.text(target.rv)));
    var late := MarkOps(paths, wire, run, target)[2..];
    TestsRead(wire, p);
    assert MarkOps(paths, wire, run, target) == [uid] + ([version] + late);
    ApplyFirst(doc, uid, [version] + late);
    ApplyFirst(doc, version, late);
    if p.uid == target.uid && p.rv == target.rv {
      LateMarkOps(paths, wire, run, p, target, late);
    }
  }

  lemma NamesAndKeys()
    ensures KeyOf(ROLLING_UPDATE) == PodStore.RollingUpdate && KeyName(PodStore.RollingUpdate) == ROLLING_UPDATE
    ensures KeyOf(MARKED_BY) == PodStore.MarkedBy && KeyName(PodStore.MarkedBy) == MARKED_BY
  {
  }

  lemma StillOwned(p: PodStore.Pod)
    requires p.Has(PodStore.MarkedBy)
    ensures p.(notes := Some(p.notes.value - {PodStore.RollingUpdate})).Has(PodStore.MarkedBy)
    ensures p.notes.value - {PodStore.RollingUpdate} - {PodStore.MarkedBy} == p.notes.value - {PodStore.RollingUpdate, PodStore.MarkedBy}
  {
  }

  lemma OwnerOp(paths: Paths, wire: Wire, p: PodStore.Pod)
    requires Lead(paths) && p.Has(PodStore.MarkedBy)
    ensures Apply(EncodePod(wire, p), [Remove(paths.owner)]) ==
            Some(EncodePod(wire, p.(notes := Some(p.notes.value - {PodStore.MarkedBy}))))
  {
    NamesAndKeys();
    NoteDrop(wire, p, PodStore.MarkedBy);
    ApplyFirst(EncodePod(wire, p), Remove(paths.owner), []);
    ApplyFirst(EncodePod(wire, p.(notes := Some(p.notes.value - {PodStore.MarkedBy}))), Remove(paths.owner), []);
    assert [Remove(paths.owner)] + [] == [Remove(paths.owner)];
  }

  lemma MarkerAndOwnerOps(paths: Paths, wire: Wire, p: PodStore.Pod)
    requires Lead(paths) && p.Has(PodStore.MarkedBy)
    ensures Apply(EncodePod(wire, p), [Remove(paths.marker)] + [Remove(paths.owner)]) ==
            if p.Has(PodStore.RollingUpdate)
            then Some(EncodePod(wire, p.(notes := Some(p.notes.value - {PodStore.RollingUpdate, PodStore.MarkedBy})))) else None
  {
    NamesAndKeys();
    NoteDrop(wire, p, PodStore.RollingUpdate);
    ApplyFirst(EncodePod(wire, p), Remove(paths.marker), [Remove(paths.owner)]);
    if p.Has(PodStore.RollingUpdate) {
      StillOwned(p);
      OwnerOp(paths, wire, p.(notes := Some(p.notes.value - {PodStore.RollingUpdate})));
    }
  }

  lemma LateUnmarkOps(paths: Paths, wire: Wire, run: string, p: PodStore.Pod, target: PodStore.Pod, late: seq<Op>)
    requires Lead(paths) && late == UnmarkOps(paths, wire, run, target)[2..] && p.Claimed(run)
    ensures Apply(EncodePod(wire, p), late) ==
            if target.Has(PodStore.RollingUpdate) ==> p.Has(PodStore.RollingUpdate)
            then Some(EncodePod(wire, PodStore.UnmarkEffect(p, target))) else None
  {
    if target.Has(PodStore.RollingUpdate) {
      assert late == [Remove(paths.marker)] + [Remove(paths.owner)];
      MarkerAndOwnerOps(paths, wire, p);
    } else {
      assert late == [Remove(paths.owner)];
      OwnerOp(paths, wire, p);
    }
  }

  /** The removing patch, as sent, has exactly the typed tests and effect: it fails as a whole unless the UID matches and
      the pod carries this run's ID at that moment, and otherwise only removes the marker annotations. */
  lemma UnmarkPatchMeansUnmark(paths: Paths, wire: Wire, run: string, p: PodStore.Pod, target: PodStore.Pod)
    requires Lead(paths) && wire.Valid()
    ensures Apply(EncodePod(wire, p), UnmarkOps(paths, wire, run, target)) ==
            if PodStore.UnmarkTests(run, p, target) then Some(EncodePod(wire, PodStore.UnmarkEffect(p, target))) else None
  {
    var doc := EncodePod(wire, p);
    var uid, own := Test(paths.uid, Str(wire.text(target.uid))), Test(paths.owner, Str(run));
    var late := UnmarkOps(paths, wire, run, target)[2..];
    TestsRead(wire, p);
    NoteRead(wire, p, MARKED_BY);
    NamesAndKeys();
    assert UnmarkOps(paths, wire, run, target) == [uid] + ([own] + late);
    ApplyFirst(doc, uid, [own] + late);
    ApplyFirst(doc, own, late);
    if p.uid == target.uid && p.Claimed(run) {
      LateUnmarkOps(paths, wire, run, p, target, late);
    }
  }

  // ----- the node cordon on the wire -----

  function Strings(m: map<string, string>): map<string, Json> { map k | k in m :: Str(m[k]) }

  function NodeNotes(x: Cordon.Node): map<string, Json> {
    if x.owner.Some? then Strings(x.other)[CORDONED_BY := Str(x.owner.value)] else Strings(x.other) - {CORDONED_BY}
  }

  /** Annotations are absent when there are none. */
  function NodeMeta(wire: Wire, x: Cordon.Node): map<string, Json> {
    var identity := Identity(wire, x.uid, x.rv);
    if NodeNotes(x) == map[] then identity else identity["annotations" := Obj(NodeNotes(x))]
  }

  /** `top` and `spec` hold whatever else the node object contains. */
  function EncodeNode(wire: Wire, spec: map<string, Json>, x: Cordon.Node): Json {
    Obj(wire.top["metadata" := Obj(NodeMeta(wire, x))]["spec" := Obj(spec["unschedulable" := Bool(x.unschedulable)])])
  }

  /** The merge patch that cordons a node read at version `rv`; a missing marker stands for its removal. */
  function NodePatch(wire: Wire, rv: nat, unschedulable: bool, marker: Option<string>): Json {
    Obj(map["metadata" := Obj(map["resourceVersion" := Str(wire.text(rv)),
                                  "annotations" := Obj(map[CORDONED_BY := if marker.Some? then Str(marker.value) else Null])]),
            "spec" := Obj(map["unschedulable" := Bool(unschedulable)])])
  }

  /** Merging into an object, member by member. */
  lemma MergeFields(base: map<string, Json>, changes: map<string, Json>)
    ensures MergePatch(Obj(base), Obj(changes)).Obj?
    ensures forall k :: k in MergePatch(Obj(base), Obj(changes)).fields <==>
              if k in changes then !changes[k].Null? else k in base
    ensures forall k | k in MergePatch(Obj(base), Obj(changes)).fields ::
              MergePatch(Obj(base), Obj(changes)).fields[k] ==
              if k in changes then MergePatch(if k in base then base[k] else Null, changes[k]) else base[k]
  {
  }

  lemma OneChange<K, V>(merged: map<K, V>, base: map<K, V>, key: K, value: V)
    requires key in merged && merged[key] == value
    requires forall k | k != key :: (k in merged <==> k in base) && (k in merged ==> merged[k] == base[k])
    ensures merged == base[key := value]
  {
  }

  lemma MergeMember(base: map<string, Json>, name: string, change: Json)
    requires !change.Null?
    ensures MergePatch(Obj(base), Obj(map[name := change])) ==
            Obj(base[name := MergePatch(if name in base then base[name] else Null, change)])
  {
    var changes := map[name := change];
    MergeFields(base, changes);
    OneChange(MergePatch(Obj(base), Obj(changes)).fields, base, name, MergePatch(if name in base then base[name] else Null, change));
  }

  lemma MergeTwo(base: map<string, Json>, a: string, x: Json, b: string, y: Json)
    requires !x.Null? && !y.Null? && a != b
    ensures MergePatch(Obj(base), Obj(map[a := x, b := y])) ==
            Obj(base[a := MergePatch(if a in base then base[a] else Null, x)][b := MergePatch(if b in base then base[b] else Null, y)])
  {
    var changes := map[a := x][b := y];
    MergeFields(base, changes);
    var wanted := base[a := MergePatch(if a in base then base[a] else Null, x)][b := MergePatch(if b in base then base[b] else Null, y)];
    var merged := MergePatch(Obj(base), Obj(changes)).fields;
    assert forall k :: k in merged <==> k in wanted;
    assert forall k | k in wanted :: merged[k] == wanted[k];
    assert merged == wanted;
  }

  lemma MergeAbsent(changes: map<string, Json>)
    ensures MergePatch(Null, Obj(changes)) == MergePatch(Obj(map[]), Obj(changes))
  {
    MergeFields(map[], changes);
    assert MergePatch(Null, Obj(changes)).fields == MergePatch(Obj(map[]), Obj(changes)).fields;
  }

  lemma NotesMerged(x: Cordon.Node, run: string, present: Json)
    requires present == if NodeNotes(x) == map[] then Null else Obj(NodeNotes(x))
    ensures MergePatch(present, Obj(map[CORDONED_BY := Str(run)])) == Obj(NodeNotes(Cordon.CordonEffect(run, x)))
    ensures NodeNotes(Cordon.CordonEffect(run, x)) != map[]
  {
    var key := CORDONED_BY;
    MergeAbsent(map[key := Str(run)]);
    MergeMember(NodeNotes(x), key, Str(run));
    assert NodeNotes(x)[key := Str(run)] == NodeNotes(Cordon.CordonEffect(run, x));
    assert key in NodeNotes(Cordon.CordonEffect(run, x));
  }

  lemma MetaMerged(wire: Wire, run: string, x: Cordon.Node, version: string, notes: string)
    requires version == "resourceVersion" && notes == "annotations"
    ensures MergePatch(Obj(NodeMeta(wire, x)), Obj(map[version := Str(wire.text(x.rv)), notes := Obj(map[CORDONED_BY := Str(run)])])) ==
            Obj(NodeMeta(wire, Cordon.CordonEffect(run, x)))
  {
    var meta := NodeMeta(wire, x);
    var present := if notes in meta then meta[notes] else Null;
    NotesMerged(x, run, present);
    MergeTwo(meta, version, Str(wire.text(x.rv)), notes, Obj(map[CORDONED_BY := Str(run)]));
    assert meta[version := Str(wire.text(x.rv))] == meta;
    PutTwice(Identity(wire, x.uid, x.rv), notes, Obj(NodeNotes(x)), Obj(NodeNotes(Cordon.CordonEffect(run, x))));
  }

  lemma Overwrite<K, V>(m: map<K, V>, a: K, x: V, x': V, b: K, y: V, y': V)
    requires a != b
    ensures m[a := x][b := y][a := x'][b := y'] == m[a := x'][b := y']
  {
  }

  /** The cordon patch, as sent and once its version was accepted, cordons the node, sets the ownership marker and
      changes nothing else of the object. */
  lemma CordonPatchMeansCordon(wire: Wire, spec: map<string, Json>, run: string, x: Cordon.Node)
    ensures MergePatch(EncodeNode(wire, spec, x), NodePatch(wire, x.rv, true, Some(run))) ==
            EncodeNode(wire, spec, Cordon.CordonEffect(run, x))
  {
    var y := Cordon.CordonEffect(run, x);
    var unschedulable := spec["unschedulable" := Bool(x.unschedulable)];
    MetaMerged(wire, run, x, "resourceVersion", "annotations");
    MergeMember(unschedulable, "unschedulable", Bool(true));
    PutTwice(spec, "unschedulable", Bool(x.unschedulable), Bool(true));
    var doc := wire.top["metadata" := Obj(NodeMeta(wire, x))]["spec" := Obj(unschedulable)];
    MergeTwo(doc, "metadata", Obj(map["resourceVersion" := Str(wire.text(x.rv)), "annotations" := Obj(map[CORDONED_BY := Str(run)])]),
             "spec", Obj(map["unschedulable" := Bool(true)]));
    Overwrite(wire.top, "metadata", Obj(NodeMeta(wire, x)), Obj(NodeMeta(wire, y)), "spec", Obj(unschedulable),
              Obj(spec["unschedulable" := Bool(true)]));
  }
}
