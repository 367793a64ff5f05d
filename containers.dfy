/**
 * The container descriptor as it arrives on the wire (containerd's containers API)
 * and as this core hands it to callers, and the translation between the two
 * (containerFromProto, main.go:184-202). Only the fields the translation copies are kept.
 */
module Containers {
  import opened Wrappers

  type byte = x: int | 0 <= x < 256

  /** A protobuf `Any`: a type URL and an opaque payload. */
  datatype Any = Any(typeUrl: string, value: seq<byte>)

  /** The wire runtime message: a name and optional options. */
  datatype WireRuntime = WireRuntime(name: string, options: Option<Any>)

  /** The wire container message; `runtime` and `spec` are pointers and may be nil. */
  datatype WireContainer = WireContainer(
    id: string,
    labels: map<string, string>,
    image: string,
    runtime: Option<WireRuntime>,
    spec: Option<Any>,
    snapshotter: string,
    snapshotKey: string,
    extensions: map<string, Any>)

  /** The domain runtime record: a plain value, never absent. */
  datatype RuntimeInfo = RuntimeInfo(name: string, options: Option<Any>)

  /** Go's zero value of RuntimeInfo. */
  const ZeroRuntime: RuntimeInfo := RuntimeInfo("", None)

  /** The domain container descriptor. */
  datatype Container = Container(
    id: string,
    labels: map<string, string>,
    image: string,
    runtime: RuntimeInfo,
    spec: Option<Any>,
    snapshotter: string,
    snapshotKey: string,
    extensions: map<string, Any>)

  /**
   * containerFromProto: a total field copy. A missing wire runtime becomes the zero
   * RuntimeInfo; a present one is copied field by field.
   */
  function ContainerFromProto(w: WireContainer): (c: Container)
    ensures c.id == w.id && c.labels == w.labels && c.image == w.image
    ensures c.spec == w.spec && c.snapshotter == w.snapshotter && c.snapshotKey == w.snapshotKey
    ensures c.extensions == w.extensions
    ensures w.runtime.None? ==> c.runtime == ZeroRuntime
    ensures w.runtime.Some? ==> c.runtime.name == w.runtime.value.name && c.runtime.options == w.runtime.value.options
  {
    var runtime := if w.runtime.Some? then RuntimeInfo(w.runtime.value.name, w.runtime.value.options) else ZeroRuntime;
    Container(w.id, w.labels, w.image, runtime, w.spec, w.snapshotter, w.snapshotKey, w.extensions)
  }

  /** The wire message a descriptor is the translation of, with its runtime always present. */
  function ContainerToProto(c: Container): (w: WireContainer)
    ensures w.runtime.Some?
  {
    WireContainer(c.id, c.labels, c.image, Some(WireRuntime(c.runtime.name, c.runtime.options)),
                  c.spec, c.snapshotter, c.snapshotKey, c.extensions)
  }

  /** The wire runtime a translation cannot tell apart from a missing one. */
  function NormalRuntime(r: Option<WireRuntime>): (n: WireRuntime)
    ensures r.Some? ==> n == r.value
  {
    if r.Some? then r.value else WireRuntime("", None)
  }

  /** Of the modelled fields, translation loses nothing of a descriptor: translating its wire form gives it back. */
  lemma FromProtoOfToProto(c: Container)
    ensures ContainerFromProto(ContainerToProto(c)) == c
  {
  }

  /** A wire message whose runtime is present is recovered exactly from its translation. */
  lemma ToProtoOfFromProto(w: WireContainer)
    requires w.runtime.Some?
    ensures ContainerToProto(ContainerFromProto(w)) == w
  {
  }

  /**
   * Of the modelled fields, the only information translation drops is whether the
   * runtime was absent or present-and-empty: two messages translate to the same descriptor exactly when
   * they agree once a missing runtime is read as the empty one.
   */
  lemma FromProtoSameExactlyUpToMissingRuntime(a: WireContainer, b: WireContainer)
    ensures ContainerFromProto(a) == ContainerFromProto(b) <==>
            a.(runtime := Some(NormalRuntime(a.runtime))) == b.(runtime := Some(NormalRuntime(b.runtime)))
  {
    if ContainerFromProto(a) == ContainerFromProto(b) {
      assert NormalRuntime(a.runtime) == WireRuntime(ContainerFromProto(a).runtime.name, ContainerFromProto(a).runtime.options);
      assert NormalRuntime(b.runtime) == WireRuntime(ContainerFromProto(b).runtime.name, ContainerFromProto(b).runtime.options);
    }
  }

  /**
   * A message with id "c1", image "img:latest", labels {"a": "b"} and nothing else set
   * translates to a descriptor with exactly those and every other field at its zero value.
   */
  lemma MinimalMessageTranslation()
    ensures var w := WireContainer("c1", map["a" := "b"], "img:latest", None, None, "", "", map[]);
            ContainerFromProto(w) == Container("c1", map["a" := "b"], "img:latest", ZeroRuntime, None, "", "", map[])
  {
  }
}
