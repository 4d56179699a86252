/**
 * The RBD (Ceph block device) volume mapper of the Cinder provisioner:
 * it turns the connection record Cinder returns for a volume into an RBD
 * persistent-volume source (monitors, pool, image, user, secret reference).
 */
module Rbd {
  import opened Wrappers

  type String = seq<char>

  /** The volume-type key under which this mapper is registered. */
  const RbdType: String := "rbd"

  /** Appended to the storage-class name to name the cephx secret. */
  const SecretSuffix: String := "-cephx-secret"

  /** The part of Cinder's connection record that the mapper reads. */
  datatype ConnectionData = ConnectionData(
    hosts: seq<String>,
    ports: seq<String>,
    name: String,
    authUsername: String)

  /** A claim; only its (possibly nil) storage-class name is read. */
  datatype PersistentVolumeClaim = PersistentVolumeClaim(storageClassName: Option<String>)

  /** The controller's provisioning options; only the claim is read. */
  datatype ProvisionOptions = ProvisionOptions(pvc: PersistentVolumeClaim)

  datatype SecretReference = SecretReference(name: String)

  datatype RbdPersistentVolumeSource = RbdPersistentVolumeSource(
    cephMonitors: seq<String>,
    rbdPool: String,
    rbdImage: String,
    radosUser: String,
    secretRef: SecretReference)

  /** The volume source the mapper builds; this mapper fills only its RBD part. */
  datatype PersistentVolumeSource = PersistentVolumeSource(rbd: RbdPersistentVolumeSource)

  /** A persistent volume handed to the teardown hook. */
  datatype PersistentVolume = PersistentVolume(source: PersistentVolumeSource)

  /** The two ways building the volume source fails. */
  datatype MapperError = NoMonitors | NameNotSplittable

  /** The error text each failure kind is reported with. */
  function Message(e: MapperError): (m: String)
    ensures e == NoMonitors ==> m == "No monitors could be parsed from connection info"
    ensures e == NameNotSplittable ==> m == "Field 'name' cannot be split into pool and image"
  {
    match e
    case NoMonitors => "No monitors could be parsed from connection info"
    case NameNotSplittable => "Field 'name' cannot be split into pool and image"
  }

  // ---------------------------------------------------------------------
  // Monitors

  /** Pairs hosts with ports position by position as "host:port". */
  function JoinPairs(hosts: seq<String>, ports: seq<String>): (mons: seq<String>)
    requires |hosts| == |ports|
    ensures |mons| == |hosts|
    ensures forall i :: 0 <= i < |mons| ==> mons[i] == hosts[i] + ":" + ports[i]
  {
    if |hosts| == 0 then []
    else [hosts[0] + ":" + ports[0]] + JoinPairs(hosts[1..], ports[1..])
  }

  /**
   * The monitor list of a connection record: None (a nil slice) when the
   * host and port lists differ in length, otherwise one "host:port" entry
   * per position, in input order.
   */
  function Monitors(hosts: seq<String>, ports: seq<String>): (r: Option<seq<String>>)
    ensures r.None? <==> |hosts| != |ports|
    ensures r.Some? ==> |r.value| == |hosts|
    ensures r.Some? ==> forall i :: 0 <= i < |hosts| ==> r.value[i] == hosts[i] + ":" + ports[i]
    ensures |hosts| == 0 && |ports| == 0 ==> r == Some([])
  {
    if |hosts| != |ports| then None else Some(JoinPairs(hosts, ports))
  }

  /** Allocates the monitor array and fills it index by index. */
  method GetMonitors(conn: ConnectionData) returns (mons: Option<seq<String>>)
    ensures mons == Monitors(conn.hosts, conn.ports)
    ensures mons.None? <==> |conn.hosts| != |conn.ports|
  {
    if |conn.hosts| != |conn.ports| {
      return None;
    }
    var a := new String[|conn.hosts|];
    var i := 0;
    while i < |conn.hosts|
      invariant 0 <= i <= |conn.hosts|
      invariant forall k :: 0 <= k < i ==> a[k] == conn.hosts[k] + ":" + conn.ports[k]
    {
      a[i] := conn.hosts[i] + ":" + conn.ports[i];
      i := i + 1;
    }
    var spec := JoinPairs(conn.hosts, conn.ports);
    assert forall k :: 0 <= k < |spec| ==> a[..][k] == spec[k];
    assert a[..] == spec;
    return Some(a[..]);
  }

  // ---------------------------------------------------------------------
  // Pool / image split

  /** The index of the first occurrence of c in s, if any. */
  function FirstIndex(s: String, c: char): (r: Option<nat>)
    ensures r.None? <==> c !in s
    ensures r.Some? ==> r.value < |s| && s[r.value] == c && c !in s[..r.value]
  {
    if |s| == 0 then None
    else if s[0] == c then Some(0)
    else
      match FirstIndex(s[1..], c)
      case None => None
      case Some(k) =>
        assert s[..k + 1] == [s[0]] + s[1..][..k];
        Some(k + 1)
  }

  /**
   * Splitting on "/" into at most two parts: one part (the whole name)
   * when there is no "/", otherwise the text before the first "/" and
   * everything after it. Either part may be empty.
   */
  function SplitName(name: String): (parts: seq<String>)
    ensures |parts| == 1 || |parts| == 2
    ensures |parts| == 2 <==> '/' in name
    ensures |parts| == 1 ==> parts[0] == name
    ensures |parts| == 2 ==> '/' !in parts[0] && parts[0] + "/" + parts[1] == name
  {
    match FirstIndex(name, '/')
    case None => [name]
    case Some(k) =>
      assert name[..k] + "/" + name[k + 1..] == name[..k] + name[k..];
      assert name[..k] + name[k..] == name;
      [name[..k], name[k + 1..]]
  }

  /** Joining a slash-free pool and any image with "/" splits back into them. */
  lemma {:induction false} SplitJoin(pool: String, image: String)
    requires '/' !in pool
    ensures SplitName(pool + "/" + image) == [pool, image]
  {
    var name := pool + "/" + image;
    assert name[|pool|] == '/';
    assert name[..|pool|] == pool;
    var k := FirstIndex(name, '/').value;
    assert name[k + 1..] == image;
  }

  // ---------------------------------------------------------------------
  // Secret reference

  /** The cephx secret name: the claim's storage-class name, then "-cephx-secret". */
  function RbdSecretName(pvc: PersistentVolumeClaim): (r: String)
    requires pvc.storageClassName.Some?
    ensures |r| == |pvc.storageClassName.value| + |SecretSuffix|
    ensures r[..|pvc.storageClassName.value|] == pvc.storageClassName.value
    ensures r[|pvc.storageClassName.value|..] == "-cephx-secret"
  {
    pvc.storageClassName.value + SecretSuffix
  }

  /** Distinct storage classes get distinct secret names. */
  lemma SecretNameInjective(a: PersistentVolumeClaim, b: PersistentVolumeClaim)
    requires a.storageClassName.Some? && b.storageClassName.Some?
    requires RbdSecretName(a) == RbdSecretName(b)
    ensures a.storageClassName == b.storageClassName
  {
    // Follows from RbdSecretName's length and prefix guarantees.
  }

  // ---------------------------------------------------------------------
  // The mapper

  /**
   * BuildPVSource: the monitor check comes first, then the name split;
   * on success the source carries the monitors, both halves of the name,
   * the auth user and the derived secret reference. The storage-class
   * name is dereferenced only once both checks pass.
   */
  function BuildPVSource(conn: ConnectionData, options: ProvisionOptions)
    : (r: Result<PersistentVolumeSource, MapperError>)
    requires |conn.hosts| == |conn.ports| && '/' in conn.name ==> options.pvc.storageClassName.Some?
    ensures r == Err(NoMonitors) <==> |conn.hosts| != |conn.ports|
    ensures r == Err(NameNotSplittable) <==> |conn.hosts| == |conn.ports| && '/' !in conn.name
    ensures r.Ok? <==> |conn.hosts| == |conn.ports| && '/' in conn.name
    ensures r.Ok? ==> r.value.rbd.cephMonitors == Monitors(conn.hosts, conn.ports).value
    ensures r.Ok? ==> |r.value.rbd.cephMonitors| == |conn.hosts|
    ensures r.Ok? ==> forall i :: 0 <= i < |conn.hosts| ==>
                        r.value.rbd.cephMonitors[i] == conn.hosts[i] + ":" + conn.ports[i]
    ensures r.Ok? ==> '/' !in r.value.rbd.rbdPool
    ensures r.Ok? ==> r.value.rbd.rbdPool + "/" + r.value.rbd.rbdImage == conn.name
    ensures r.Ok? ==> r.value.rbd.radosUser == conn.authUsername
    ensures r.Ok? ==> r.value.rbd.secretRef.name
                        == options.pvc.storageClassName.value + "-cephx-secret"
  {
    var mons := Monitors(conn.hosts, conn.ports);
    if mons.None? then Err(NoMonitors)
    else
      var splitName := SplitName(conn.name);
      if |splitName| != 2 then Err(NameNotSplittable)
      else
        var secretRef := SecretReference(RbdSecretName(options.pvc));
        Ok(PersistentVolumeSource(RbdPersistentVolumeSource(
          cephMonitors := mons.value,
          rbdPool := splitName[0],
          rbdImage := splitName[1],
          radosUser := conn.authUsername,
          secretRef := secretRef)))
  }

  /**
   * A name made of a slash-free pool, "/", and any image (which may itself
   * contain "/", and either of which may be empty) builds a source with
   * exactly that pool and image.
   */
  lemma {:induction false} BuildSplitsAtFirstSlash(
    conn: ConnectionData, options: ProvisionOptions, pool: String, image: String)
    requires |conn.hosts| == |conn.ports|
    requires options.pvc.storageClassName.Some?
    requires '/' !in pool && conn.name == pool + "/" + image
    ensures BuildPVSource(conn, options).Ok?
    ensures BuildPVSource(conn, options).value.rbd.rbdPool == pool
    ensures BuildPVSource(conn, options).value.rbd.rbdImage == image
  {
    SplitJoin(pool, image);
  }

  /** A proof step of BuildExample: the literal concatenations it relies on. */
  lemma ExampleStrings()
    ensures "10.0.0.1" + ":" + "6789" == "10.0.0.1:6789"
    ensures "10.0.0.2" + ":" + "6789" == "10.0.0.2:6789"
    ensures "fast-rbd" + "-cephx-secret" == "fast-rbd-cephx-secret"
    ensures "mypool/myimage" == "mypool" + "/" + "myimage" && '/' !in "mypool"
  {
  }

  /** Two hosts on one port, "mypool/myimage", user "admin", class "fast-rbd". */
  lemma {:induction false} BuildExample()
    ensures
      var conn := ConnectionData(["10.0.0.1", "10.0.0.2"], ["6789", "6789"], "mypool/myimage", "admin");
      var options := ProvisionOptions(PersistentVolumeClaim(Some("fast-rbd")));
      BuildPVSource(conn, options) == Ok(PersistentVolumeSource(RbdPersistentVolumeSource(
        ["10.0.0.1:6789", "10.0.0.2:6789"], "mypool", "myimage", "admin",
        SecretReference("fast-rbd-cephx-secret"))))
  {
    var conn := ConnectionData(["10.0.0.1", "10.0.0.2"], ["6789", "6789"], "mypool/myimage", "admin");
    var options := ProvisionOptions(PersistentVolumeClaim(Some("fast-rbd")));
    ExampleStrings();
    BuildSplitsAtFirstSlash(conn, options, "mypool", "myimage");
    var rbd := BuildPVSource(conn, options).value.rbd;
    assert rbd.cephMonitors == ["10.0.0.1:6789", "10.0.0.2:6789"];
    assert rbd.secretRef == SecretReference("fast-rbd-cephx-secret");
  }

  /** The pre-provisioning hook: RBD needs no credentials minted, so it never fails. */
  function AuthSetup(options: ProvisionOptions, conn: ConnectionData): (err: Option<MapperError>)
    ensures err == None
  {
    None
  }

  /** The post-deletion hook: nothing to clean up, so it never fails. */
  function AuthTeardown(pv: PersistentVolume): (err: Option<MapperError>)
    ensures err == None
  {
    None
  }
}
