# containerd client adapter: a Dafny model

This project models the core of a small Go adapter (`main.go`) that gives a process
one shared client to containerd. It covers three pieces:

- **The once-guarded singleton.** `Client(address, namespace)` runs its initialisation
  body under a `sync.Once`. The body probes the unix socket, dials gRPC and stores the client.
  The model is a two-state machine. The outcomes of the probe and the dial are inputs to each
  call, and the body's I/O is recorded as a sequence of effects. The model exists in two forms:
  a pure step function `Once.ClientStep`, folded over any sequence of calls by `Once.Run`,
  and a class `Once.ClientGuard` whose `Client` method updates the package state in place
  and is proved equal to the step function.
- **Response translation.** `containerFromProto` is a total field copy from the wire
  container to the domain container. A missing runtime becomes the zero `RuntimeInfo`.
- **Result selection in the six facade operations.** Each service stub is a function from
  the exact request it receives to an abstract round-trip outcome: a transport error or a
  response. The error mapper `errdefs.FromGRPC` is a function parameter and is left
  uninterpreted.

Modules: `Wrappers` (Option), `Errors` (the errors the core produces), `Containers`
(wire and domain containers, translation), `Facade` (the six operations) and `Once`
(the singleton).

`Client` is meant to return the first call's outcome, error included, on every later call.
The code does not do this. `retErr` is local to each call, so every call after the first
returns the stored client with a nil error. The model follows the code (see Findings).

## Model

| member | source | states |
|---|---|---|
| Errors.ProbeError | main.go:80-81 | the probe error's text is the fixed prefix followed by the cause's text, and the error is never the unknown-state sentinel |
| Errors.ProbeErrorKeepsCauseText | main.go:81 | two probe errors are equal exactly when their causes have the same text: the cause's text, and only its text, survives the `%v` formatting |
| Containers.ContainerFromProto | main.go:184-202 | ID, Labels, Image, Spec, Snapshotter, SnapshotKey and Extensions are copied unchanged; a missing runtime gives the zero RuntimeInfo; a present one has its Name and Options copied |
| Containers.FromProtoOfToProto | main.go:184-202 | translation is left-inverse to re-encoding: of the modelled fields, none of a descriptor is lost |
| Containers.ToProtoOfFromProto | main.go:184-202 | a wire message that carries a runtime is recovered exactly from its translation |
| Containers.FromProtoSameExactlyUpToMissingRuntime | main.go:185-191 | two wire messages translate alike if and only if they agree once an absent runtime is read as the empty one; of the modelled fields, absent-versus-empty is the only information dropped |
| Containers.MinimalMessageTranslation | main.go:184-202 | id "c1", image "img:latest", labels {"a": "b"} translate to themselves, with every other field at its zero value and a concrete zero runtime |
| Facade.LoadContainer | main.go:121-129 | a nil error exactly when the Get call responded for the given id; then the result is the translated container; otherwise a nil container and FromGRPC of the transport error |
| Facade.TaskPid | main.go:131-142 | zero pid on every error; a transport error gives FromGRPC of it, and the status is not read; a responded Unknown status gives the unknown-state sentinel whatever the pid; otherwise the reported pid with a nil error |
| Facade.UnknownStateHidesPid | main.go:138-140 | any two responses with status Unknown give the same reply, (0, ErrTaskIsInUnknownState), whatever their pids |
| Facade.Version | main.go:144-150 | a nil error exactly when the call responded, with the reported version; otherwise "" and FromGRPC of the transport error |
| Facade.SnapshotMounts | main.go:152-161 | the request carries the snapshotter and key; a nil error exactly when the call responded, with the mounts in the order received; otherwise no mounts and FromGRPC of the error |
| Facade.ContainerStatus | main.go:163-172 | the request carries the id and Verbose = false; a nil error exactly when the call responded, with the response's status; otherwise nil and the transport error unchanged |
| Facade.ContainerStatusAsksOnlyNonVerbose | main.go:164-167 | the result depends on the service only at the non-verbose request for the id |
| Facade.ContainerStats | main.go:174-182 | a nil error exactly when the call responded for the id, with the response's stats; otherwise nil and the transport error unchanged |
| Facade.CriErrorsBypassMapping | main.go:146-148 | for the same transport error, the CRI status call and a mapped call report the same error exactly when FromGRPC leaves that error unchanged |
| Once.NewClient | main.go:110-116 | the built client has all five service stubs on the one dialled connection |
| Once.ClientStep | main.go:76-119 | a call after the first changes nothing, does no I/O and returns the stored client with a nil error; the first call probes, dials only after a successful probe, stores a client only on a successful dial, and reports the wrapped probe error or the dial error on failure |
| Once.Run | main.go:63-64 | over any sequence of calls the package state stays reachable, there is one answer per call, and the guard is done after the first call |
| Once.DoneIsFinal | main.go:78 | once the body has run, no later call changes the state, does I/O or reports an error |
| Once.BodyRunsAtMostOnce | main.go:63-105 | the I/O of any sequence of calls is exactly that of the first call: at most one probe, using the first call's address, and at most one dial, after it and only if that probe succeeded |
| Once.LaterCallsReturnStoredClient | main.go:77-118 | every call after the first returns the first call's stored client with a nil error, whatever its own arguments; a client is stored exactly when the first call's probe and dial both succeeded |
| Once.FailedFirstCallIsForgotten | main.go:77-118 | after a failed first call, which reports its error, the second call reports neither a client nor an error |
| Once.CachedStep | main.go:76-119 | the corrected guard: the first call behaves as in the source, and later calls return the cached client and error without I/O |
| Once.CachedRun | main.go:63-64 | the corrected guard over any sequence of calls gives one answer per call |
| Once.CachedDoneIsFinal | main.go:78 | after the corrected body has run, every call repeats the cached answer without I/O |
| Once.CachedRepeatsFirstAnswer | main.go:76-119 | the corrected guard gives every caller the first call's answer, error included, and does exactly the same I/O as the source's guard |
| Once.ClientGuard.constructor | main.go:63-64 | the package state starts with the guard not run, no client stored and no I/O done |
| Once.ClientGuard.Client | main.go:76-119 | the in-place update of `once` and `ctrdClient` and the returned pair are exactly those of ClientStep on the old state |

## Left out

- The socket probe (`net.DialTimeout`), the gRPC dial, its options, the backoff constants and the timeouts: these are I/O and timing. Their outcomes are inputs to each call.
- `newNSInterceptors` and `dialer.*` are not part of this model. Attaching namespace metadata to calls happens in the transport. The namespace only appears in the recorded dial effect.
- `errdefs.FromGRPC` is not part of this model. It is a function parameter, so its classification and its idempotence are not stated.
- The thread safety of `sync.Once`: the model covers sequential once-semantics only. Concurrent first callers waiting for the one execution are not modelled.
- `context` cancellation and deadlines, flag parsing, and the printing in `main()`.
- The stubs of the containerd and CRI services, and the full proto types. Only the fields that are read or copied are kept. The CRI status and stats records are type parameters.
- Facade.TaskPid: a response with a nil `Process` makes the source panic. The model gives every response a process.
- Containers.ContainerFromProto: the source copies the `Labels` and `Extensions` maps and the `*types.Any` pointers `Runtime.Options` and `Spec` by reference, so the wire message and the result share them. The model works on values, so this aliasing is not captured.
- Containers.ContainerFromProto: the wire `CreatedAt` and `UpdatedAt` are not copied, so the result's are always zero. Neither type models them.
- Errors.ProbeError: errors are modelled by their text, plus the identity of the one sentinel. The source's `%v` formatting does not wrap the cause, and error wrapping and identity (`errors.Is`, `errors.Unwrap`) are not represented.
- Facade.SnapshotMounts: Go's nil slice and empty slice are both the empty sequence here. The mounts are values, not pointers.
- Task statuses other than Unknown are listed by name only. Their numeric wire values are not modelled.

## Findings

| source | as written | input that shows it | evidently intended | confidence | as-written member | corrected member |
|---|---|---|---|---|---|---|
| main.go:77-118 | `retErr` is a local of each call, so a failed first initialisation is followed by calls that return a nil client and a nil error | a first call whose probe fails (socket unreachable), then a second call | every call returns the first call's outcome: the same client, or the same error | medium, not executed | Once.FailedFirstCallIsForgotten | Once.CachedRepeatsFirstAnswer |

The rest of the model (`Once.ClientStep`, `Once.Run` and `Once.ClientGuard`) states the
code as written. `Once.CachedStep` and `Once.CachedRun` give the corrected guard.
`Once.CachedRepeatsFirstAnswer` proves that the corrected guard answers every call with the
first outcome and does exactly the same I/O.
