# RBD volume mapper of the Cinder provisioner, in Dafny

This project models the RBD (Ceph block device) mapper of the OpenStack Cinder
external provisioner for Kubernetes. Cinder returns a connection record for a
volume. It holds monitor hosts and ports, a combined `pool/image` name and an
auth user. The mapper turns that record into an RBD persistent-volume source.
The source holds the monitor list (`host:port` entries, in input order), the
pool and the image, the rados user, and a reference to the secret
`<storage-class>-cephx-secret`. The mapper's auth setup and teardown hooks do
nothing and never fail.

Files:
- `wrappers.dfy`: module `Wrappers`, with `Option` (its `None` stands for Go's nil slice or pointer) and `Result`.
- `rbd.dfy`: module `Rbd`, the data model and every operation of `rbd.go`.

The monitor builder is imperative in the source: it allocates a slice and
fills it by index. So it appears twice here. `GetMonitors` is a method that
fills a fresh array in a `while` loop. It is proved equal to the specification
function `Monitors`, which `BuildPVSource` uses. Everything else in the file is
straight-line code and is modelled as functions.

The code checks only that `SplitN(name, "/", 2)` yields two parts and never
checks either half for emptiness. So `"/img"` builds pool `""`, and `"pool/"`
builds image `""`. See `BuildSplitsAtFirstSlash`, which allows either half to
be empty. The empty name gives a single part, so it is rejected like any name
without `/`.

## Model

| member | source | states |
|---|---|---|
| `Rbd.Message` | pkg/volume/cinder/provisioner/rbd.go:55-59 | gives the exact text of each failure kind: the monitor error and the name error |
| `Rbd.JoinPairs` | pkg/volume/cinder/provisioner/rbd.go:41-45 | for equal-length host and port lists, the result has one entry per position, and entry `i` is `hosts[i] + ":" + ports[i]` |
| `Rbd.Monitors` | pkg/volume/cinder/provisioner/rbd.go:36-46 | the result is nil (`None`) exactly when the lengths differ; otherwise it has `len(hosts)` entries, entry `i` is `hosts[i]:ports[i]` in input order, and two empty lists give an empty, non-nil list |
| `Rbd.GetMonitors` | pkg/volume/cinder/provisioner/rbd.go:36-46 | filling a fresh array by index in a loop returns exactly `Monitors(hosts, ports)`, and nil exactly when the lengths differ |
| `Rbd.FirstIndex` | pkg/volume/cinder/provisioner/rbd.go:57 | the result is absent exactly when the character does not occur; otherwise it is a position holding the character with no earlier occurrence |
| `Rbd.SplitName` | pkg/volume/cinder/provisioner/rbd.go:57-58 | `SplitN(name, "/", 2)` yields one or two parts; two exactly when `name` contains `/`; one part is the whole name; of two parts, the first has no `/` and `first + "/" + second == name` |
| `Rbd.SplitJoin` | pkg/volume/cinder/provisioner/rbd.go:57-58 | splitting `pool + "/" + image` for a slash-free pool gives back exactly `[pool, image]`, even when the image holds more `/` |
| `Rbd.RbdSecretName` | pkg/volume/cinder/provisioner/rbd.go:48-50 | for a non-nil storage-class name, the secret name is that name followed by `-cephx-secret`, stated as its prefix, suffix and length |
| `Rbd.SecretNameInjective` | pkg/volume/cinder/provisioner/rbd.go:48-50 | two claims with the same secret name have the same storage-class name |
| `Rbd.BuildPVSource` | pkg/volume/cinder/provisioner/rbd.go:52-72 | fails with the monitor error exactly when the lengths differ, whatever the name; fails with the name error exactly when the lengths agree and the name has no `/`; succeeds otherwise, with the monitor list, a slash-free pool and image that rejoin to the name, `RadosUser == AuthUsername`, and `SecretRef.Name == storageClassName + "-cephx-secret"`; the storage-class name is needed only on the success path |
| `Rbd.BuildSplitsAtFirstSlash` | pkg/volume/cinder/provisioner/rbd.go:57-67 | with matching lengths, a name `pool + "/" + image` with a slash-free pool builds a source whose pool and image are exactly those halves, empty ones included |
| `Rbd.BuildExample` | pkg/volume/cinder/provisioner/rbd.go:52-72 | two hosts on port 6789, name `mypool/myimage`, user `admin` and class `fast-rbd` build exactly the expected source |
| `Rbd.AuthSetup` | pkg/volume/cinder/provisioner/rbd.go:74-76 | returns no error for every input |
| `Rbd.AuthTeardown` | pkg/volume/cinder/provisioner/rbd.go:78-80 | returns no error for every persistent volume |

## Left out

- The diagnostic `klog.Errorf` on the length mismatch is a logging side effect. It does not change any result.
- The Kubernetes API types and `controller.ProvisionOptions` are cut down to the fields this file reads or writes. `PersistentVolumeSource` holds only its RBD part.
- Both hooks' `*cinderProvisioner` argument is left out. Neither hook reads its arguments.
- The embedded `volumeMapper` interface and dispatch on the `"rbd"` volume type (`RbdType`) belong to the caller. They are not part of this model.
- Fetching the connection record from Cinder is network I/O. The record is taken as an input.
- A nil `StorageClassName` (or a nil claim) makes the Go code panic at line 49. The model turns this into `BuildPVSource`'s `requires`, which applies only when both checks pass, because only then is the field read.
- `fmt.Sprintf` and `strings.SplitN` are library calls. They are specified as concatenation and as a split at the first `/`.
- `GetMonitors` returns the filled array's contents as a value. Aliasing of the returned Go slice is not modelled.
- Determinism, idempotence and "changes nothing" for `BuildPVSource`, `AuthSetup` and `AuthTeardown` are not stated as lemmas. They hold because these members are Dafny functions.
- Error values are compared by kind (`NoMonitors`, `NameNotSplittable`). `Message` gives their texts.
- Go strings are byte strings, and the model uses `seq<char>`. The split on `/` and the concatenations give the same result either way. The length in `RbdSecretName`'s contract counts characters, not bytes.
