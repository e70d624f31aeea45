/** The data the reconcilers and the Proxmox adapter exchange. */
module Proxmox {
  import opened Prelude
  import Manifest

  const MANAGED_TAG := "managed-by-proxmops"

  datatype GuestKind = Qemu | Lxc

  /** The observed state of a guest. */
  datatype Object = Object(
    kind: GuestKind, name: string, node: string, vmid: int, cores: int, memoryMB: int, cpu: string,
    running: bool, rebootPending: bool, isTemplate: bool, tags: seq<string>,
    ciUser: string, ip: string, nameserver: string, searchDomain: string, cidataHash: string)
  {
    predicate Owned() {
      MANAGED_TAG in tags
    }
  }

  datatype GuestClone = GuestClone(templateVMID: int, full: bool)

  /** The flat create specification. */
  datatype GuestSpec = GuestSpec(
    node: string, vmid: int, name: string, cores: int, memoryMB: int, cpu: string,
    diskStorage: string, iso: string, running: bool, tags: seq<string>,
    image: Option<Manifest.Image>, cloudInit: Option<Manifest.CloudInit>, asTemplate: bool,
    clone: Option<GuestClone>, userData: string)

  /** The drift corrections applied to an existing guest. */
  datatype GuestUpdate = GuestUpdate(
    node: string, vmid: int, cores: int, memoryMB: int, cpu: string, running: bool,
    ciUser: string, ip: string, nameserver: string, searchDomain: string)

  datatype IsoDownload = IsoDownload(node: string, storage: string, filename: string)

  datatype ActionType = ActionCreate | ActionUpdate | ActionDelete

  /** What an action's Apply closure calls. */
  datatype Apply =
    | CreateGuest(spec: GuestSpec)
    | BuildTemplate(spec: GuestSpec)
    | ConvertToTemplate(node: string, vmid: int)
    | UpdateGuest(upd: GuestUpdate)
    | ReseedGuest(seed: Option<GuestSpec>, reboot: bool, node: string, vmid: int)
    | RebootGuest(node: string, vmid: int)
    | DeleteGuest(obj: Object)
    | DownloadISO(req: IsoDownload)
    | SpecError(vmid: int)
    | NoApply

  datatype Action = Action(
    typ: ActionType, kind: Manifest.Kind, name: string, apply: Apply, informational: bool, commit: string)

  datatype Key = Key(kind: Manifest.Kind, name: string)

  function KeyOf(a: Action): Key {
    Key(a.kind, a.name)
  }
}
