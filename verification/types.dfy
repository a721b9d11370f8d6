/** The VirtualMachine API object, the GCE request built from it, and the texts the controller writes. */
module Types {
  const FINALIZER := "virtualmachines.ci.openshift.io"
  const PHASE_ERROR := "error"
  const MAX_RETRIES := 15
  const SSH_USER := "cloud-user"
  const STATUS_NOT_FOUND := 404

  datatype Option<+T> = None | Some(value: T)

  /** Namespace and name of an API object. */
  datatype Key = Key(namespace: string, name: string)

  datatype DiskSpec = DiskSpec(sizeGB: int, diskType: string)
  datatype BootDiskSpec = BootDiskSpec(imageFamily: string, disk: DiskSpec)

  /** `disks` is None for a nil slice and Some([]) for an empty one. */
  datatype Spec = Spec(machineType: string, bootDisk: BootDiskSpec, disks: Option<seq<DiskSpec>>) {
    function DataDisks(): seq<DiskSpec> {
      match disks
      case None => []
      case Some(ds) => ds
    }
  }

  datatype ProcessingState = ProcessingState(phase: string, message: string)
  datatype Status = Status(state: ProcessingState, selfLink: string, secretRef: string)

  datatype VM = VM(namespace: string, name: string, uid: nat, resourceVersion: nat, deleting: bool,
                   finalizers: seq<string>, spec: Spec, status: Status) {
    function Id(): Key { Key(namespace, name) }

    predicate Guarded() { FINALIZER in finalizers }
  }

  /** The status that records a failure; the other status fields are kept. */
  function Errored(status: Status, text: string): Status {
    status.(state := ProcessingState(PHASE_ERROR, text))
  }

  datatype Config = Config(project: string, zone: string)

  datatype Disk = Disk(autoDelete: bool, boot: bool, sourceImage: string, sizeGB: int, diskType: string)
  datatype InsertRequest = InsertRequest(name: string, machineType: string, sshKeys: string,
                                         canIpForward: bool, network: string,
                                         accessConfig: string, accessName: string, disks: seq<Disk>)

  datatype Keypair = Keypair(pem: string, pub: string)
  datatype Secret = Secret(ownerUid: nat, pem: string, pub: string, sshConfig: string)

  /** An error of the GCE client; `api` says whether it is a googleapi.Error, which alone carries a code. */
  datatype GceError = GceError(api: bool, code: int, text: string) {
    predicate IsNotFound() { api && code == STATUS_NOT_FOUND }
  }

  const DONE := "DONE"

  datatype OpId = OpId(instance: string, serial: nat)
  datatype Operation = Operation(id: OpId, status: string, errors: Option<seq<string>>) {
    predicate Done() { status == DONE }
  }

  /** NAT addresses by network interface and access config. */
  datatype InstanceView = InstanceView(name: string, interfaces: seq<seq<string>>)
}
