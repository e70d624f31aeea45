/** The desired state: manifests as the loader hands them to the reconcilers. */
module Manifest {
  import opened Prelude
  import Text

  datatype Kind = KindVirtualMachine | KindContainer | KindIso | KindNetwork | KindTemplate

  const API_VERSION := "proxmops.dev/v1"
  const STATE_RUNNING := "running"
  const APPLY_MODE_REBOOT := "reboot"

  datatype ObjectMeta = ObjectMeta(name: string, node: string, tags: seq<string>)

  datatype Disk = Disk(storage: string, size: string, bus: string)

  datatype Image = Image(source: string, importStorage: string)

  datatype FromTemplate = FromTemplate(name: string, linked: bool)

  datatype CloudInit = CloudInit(user: string, password: string, sshKeys: seq<string>,
                                 ip: string, nameserver: string, searchDomain: string)

  // Power state and apply mode are plain strings in YAML, and Validate does not restrict them.
  datatype VirtualMachineSpec = VirtualMachineSpec(
    vmid: int, cores: int, memory: int, cpu: string, disks: seq<Disk>, iso: string, userData: string,
    state: string, image: Option<Image>, fromTemplate: Option<FromTemplate>, cloudInit: Option<CloudInit>,
    applyMode: string)

  datatype VirtualMachine = VirtualMachine(apiVersion: string, meta: ObjectMeta, spec: VirtualMachineSpec)

  datatype TemplateSpec = TemplateSpec(vmid: int, image: Option<Image>, cores: int, memory: int, cpu: string,
                                       disks: seq<Disk>)

  datatype Template = Template(apiVersion: string, meta: ObjectMeta, spec: TemplateSpec)

  // `urlPath` is what the URL library reads as the path of `source`, or None when it does not parse.
  datatype IsoSpec = IsoSpec(source: string, urlPath: Option<string>, node: string, storage: string)

  datatype Iso = Iso(apiVersion: string, meta: ObjectMeta, spec: IsoSpec) {
    /** The name the image gets on the storage. */
    function Filename(): string {
      if spec.urlPath.Some? && spec.urlPath.value != "" then Text.Base(spec.urlPath.value)
      else Text.Base(spec.source)
    }
  }

  datatype Resource =
    | VM(vm: VirtualMachine)
    | Tpl(tpl: Template)
    | IsoImage(iso: Iso)
    | Container(containerMeta: ObjectMeta, containerVmid: int)
    | Network(networkMeta: ObjectMeta)
  {
    function GetKind(): Kind {
      match this
      case VM(_) => KindVirtualMachine
      case Tpl(_) => KindTemplate
      case IsoImage(_) => KindIso
      case Container(_, _) => KindContainer
      case Network(_) => KindNetwork
    }

    function GetMeta(): ObjectMeta {
      match this
      case VM(vm) => vm.meta
      case Tpl(tpl) => tpl.meta
      case IsoImage(iso) => iso.meta
      case Container(meta, _) => meta
      case Network(meta) => meta
    }

    /** spec.vmid for the kinds that carry one. */
    function GetVMID(): int {
      match this
      case VM(vm) => vm.spec.vmid
      case Tpl(tpl) => tpl.spec.vmid
      case Container(_, vmid) => vmid
      case _ => 0
    }
  }

  /** The declared VMs, in manifest order. */
  function VMs(desired: seq<Resource>): (vms: seq<VirtualMachine>)
    ensures forall vm :: vm in vms <==> VM(vm) in desired
  {
    if desired == [] then []
    else
      var rest := VMs(desired[..|desired| - 1]);
      var r := desired[|desired| - 1];
      assert desired == desired[..|desired| - 1] + [r];
      if r.VM? then rest + [r.vm] else rest
  }

  /** The declared templates, in manifest order. */
  function Templates(desired: seq<Resource>): (tpls: seq<Template>)
    ensures forall tpl :: tpl in tpls <==> Tpl(tpl) in desired
  {
    if desired == [] then []
    else
      var rest := Templates(desired[..|desired| - 1]);
      var r := desired[|desired| - 1];
      assert desired == desired[..|desired| - 1] + [r];
      if r.Tpl? then rest + [r.tpl] else rest
  }

  datatype Fault =
    | BadApiVersion | MissingName | MissingNode | BadVMID | MissingImageSource | ImageAndTemplate
    | MissingTemplateName | CloudInitWithoutDisk | UserDataAndCloudInit | UserDataAndIso | BadBus

  function ValidateMeta(apiVersion: string, meta: ObjectMeta): Option<Fault> {
    if apiVersion != API_VERSION then Some(BadApiVersion)
    else if meta.name == "" then Some(MissingName)
    else None
  }

  predicate SupportedBus(bus: string) {
    bus == "" || bus == "scsi" || bus == "virtio"
  }

  /** VirtualMachine.Validate: the first fault, in the order the code checks them. */
  function Validate(vm: VirtualMachine): Option<Fault> {
    var s := vm.spec;
    if ValidateMeta(vm.apiVersion, vm.meta).Some? then ValidateMeta(vm.apiVersion, vm.meta)
    else if vm.meta.node == "" then Some(MissingNode)
    else if s.vmid <= 0 then Some(BadVMID)
    else if s.image.Some? && s.image.value.source == "" then Some(MissingImageSource)
    else if s.image.Some? && s.fromTemplate.Some? then Some(ImageAndTemplate)
    else if s.fromTemplate.Some? && s.fromTemplate.value.name == "" then Some(MissingTemplateName)
    else if s.cloudInit.Some? && s.image.None? && s.fromTemplate.None? then Some(CloudInitWithoutDisk)
    else if s.userData != "" && s.cloudInit.Some? then Some(UserDataAndCloudInit)
    else if s.userData != "" && s.iso != "" then Some(UserDataAndIso)
    else if exists d :: d in s.disks && !SupportedBus(d.bus) then Some(BadBus)
    else None
  }

  /** What a validated manifest promises to the planner and the client. */
  predicate Sound(vm: VirtualMachine) {
    var s := vm.spec;
    && vm.apiVersion == API_VERSION && vm.meta.name != "" && vm.meta.node != "" && s.vmid > 0
    // one origin of the root disk, named if given, and one that can carry the declared cloud-init
    && !(s.image.Some? && s.fromTemplate.Some?)
    && (s.image.Some? ==> s.image.value.source != "")
    && (s.fromTemplate.Some? ==> s.fromTemplate.value.name != "")
    && (s.cloudInit.Some? ==> s.image.Some? || s.fromTemplate.Some?)
    // the seed image is the only source of first-boot data, and has the drive to itself
    && (s.userData != "" ==> s.cloudInit.None? && s.iso == "")
    && (forall d :: d in s.disks ==> SupportedBus(d.bus))
  }

  /** A manifest passes validation exactly when it is sound. */
  lemma ValidateExactly(vm: VirtualMachine)
    ensures Validate(vm).None? <==> Sound(vm)
  {
  }

  /** The declared VMs and templates keep the manifests' order. */
  lemma {:induction false} FilteredInOrder(a: seq<Resource>, b: seq<Resource>)
    ensures VMs(a + b) == VMs(a) + VMs(b) && Templates(a + b) == Templates(a) + Templates(b)
  {
    if b == [] {
      assert a + b == a;
    } else {
      FilteredInOrder(a, b[..|b| - 1]);
      assert (a + b)[..|a + b| - 1] == a + b[..|b| - 1];
    }
  }
}
