// The tables that turn LLVM enumerations into the strings written as fact
// columns: calling conventions, thread-local modes, linkage types,
// visibilities and atomic orderings.
module LlvmEnums {
  import opened Common

  datatype CallingConv =
    | C | Fast | Cold | X86FastCall | X86StdCall | X86ThisCall | IntelOclBi
    | ArmAapcs | ArmAapcsVfp | ArmApcs | Msp430Intr | PtxDevice | PtxKernel
    | OtherConv(id: nat)

  datatype ThreadLocalMode =
    | NotThreadLocal | GeneralDynamic | LocalDynamic | InitialExec | LocalExec
    | InvalidTlm(raw: int)

  datatype Linkage =
    | External | Private | Internal | LinkOnceAny | LinkOnceOdr | WeakAny
    | WeakOdr | Common | Appending | ExternalWeak | AvailableExternally
    | InvalidLinkage(raw: int)

  datatype Visibility = Default | Hidden | Protected | InvalidVisibility(raw: int)

  datatype AtomicOrdering =
    | NotAtomic | Unordered | Monotonic | Acquire | Release | AcquireRelease
    | SequentiallyConsistent | InvalidOrdering(raw: int)

  /** The name of a listed calling convention. The C convention and every
      unlisted one reach the table's default branch, whose result the model
      leaves unspecified (None). */
  function CallingConvName(cc: CallingConv): (r: Option<string>)
    ensures r.Some? <==> !(cc.C? || cc.OtherConv?)
    ensures r.Some? ==> |r.value| > 0
  {
    match cc
    case C => None
    case Fast => Some("fastcc")
    case Cold => Some("coldcc")
    case X86FastCall => Some("x86_fastcallcc")
    case X86StdCall => Some("x86_stdcallcc")
    case X86ThisCall => Some("x86_thiscallcc")
    case IntelOclBi => Some("intel_ocl_bicc")
    case ArmAapcs => Some("arm_aapcscc")
    case ArmAapcsVfp => Some("arm_aapcs_vfpcc")
    case ArmApcs => Some("arm_apcscc")
    case Msp430Intr => Some("msp430_intrcc")
    case PtxDevice => Some("tx_device")
    case PtxKernel => Some("ptx_kernel")
    case OtherConv(_) => None
  }

  /** Reverse lookup of the calling-convention table. */
  function CallingConvFromName(s: string): Option<CallingConv> {
    if s == "fastcc" then Some(Fast)
    else if s == "coldcc" then Some(Cold)
    else if s == "x86_fastcallcc" then Some(X86FastCall)
    else if s == "x86_stdcallcc" then Some(X86StdCall)
    else if s == "x86_thiscallcc" then Some(X86ThisCall)
    else if s == "intel_ocl_bicc" then Some(IntelOclBi)
    else if s == "arm_aapcscc" then Some(ArmAapcs)
    else if s == "arm_aapcs_vfpcc" then Some(ArmAapcsVfp)
    else if s == "arm_apcscc" then Some(ArmApcs)
    else if s == "msp430_intrcc" then Some(Msp430Intr)
    else if s == "tx_device" then Some(PtxDevice)
    else if s == "ptx_kernel" then Some(PtxKernel)
    else None
  }

  /** Listed conventions have pairwise distinct names: the table inverts. */
  lemma CallingConvNamesDistinct(cc: CallingConv)
    requires CallingConvName(cc).Some?
    ensures CallingConvFromName(CallingConvName(cc).value) == Some(cc)
  {
  }

  function ThreadLocalModeName(m: ThreadLocalMode): (r: string)
    ensures (r == "") <==> m.NotThreadLocal?
  {
    match m
    case NotThreadLocal => ""
    case GeneralDynamic => "thread_local"
    case LocalDynamic => "thread_local(localdynamic)"
    case InitialExec => "thread_local(initialexec)"
    case LocalExec => "thread_local(localexec)"
    case InvalidTlm(_) => "<invalid tlm>"
  }

  function ThreadLocalModeFromName(s: string): Option<ThreadLocalMode> {
    if s == "" then Some(NotThreadLocal)
    else if s == "thread_local" then Some(GeneralDynamic)
    else if s == "thread_local(localdynamic)" then Some(LocalDynamic)
    else if s == "thread_local(initialexec)" then Some(InitialExec)
    else if s == "thread_local(localexec)" then Some(LocalExec)
    else None
  }

  /** Every valid thread-local mode is recovered from its name; the invalid
      ones all share the placeholder. */
  lemma ThreadLocalModeRoundTrip(m: ThreadLocalMode)
    ensures !m.InvalidTlm? ==> ThreadLocalModeFromName(ThreadLocalModeName(m)) == Some(m)
    ensures m.InvalidTlm? ==> ThreadLocalModeName(m) == "<invalid tlm>"
                              && ThreadLocalModeFromName(ThreadLocalModeName(m)).None?
  {
  }

  function LinkageName(l: Linkage): (r: string)
    ensures |r| > 0
  {
    match l
    case External => "external"
    case Private => "private"
    case Internal => "internal"
    case LinkOnceAny => "linkonce"
    case LinkOnceOdr => "linkonce_odr"
    case WeakAny => "weak"
    case WeakOdr => "weak_odr"
    case Common => "common"
    case Appending => "appending"
    case ExternalWeak => "extern_weak"
    case AvailableExternally => "available_externally"
    case InvalidLinkage(_) => "<invalid linkage>"
  }

  function LinkageFromName(s: string): Option<Linkage> {
    if s == "external" then Some(External)
    else if s == "private" then Some(Private)
    else if s == "internal" then Some(Internal)
    else if s == "linkonce" then Some(LinkOnceAny)
    else if s == "linkonce_odr" then Some(LinkOnceOdr)
    else if s == "weak" then Some(WeakAny)
    else if s == "weak_odr" then Some(WeakOdr)
    else if s == "common" then Some(Common)
    else if s == "appending" then Some(Appending)
    else if s == "extern_weak" then Some(ExternalWeak)
    else if s == "available_externally" then Some(AvailableExternally)
    else None
  }

  /** The eleven linkage kinds have eleven distinct names. */
  lemma LinkageRoundTrip(l: Linkage)
    ensures !l.InvalidLinkage? ==> LinkageFromName(LinkageName(l)) == Some(l)
    ensures l.InvalidLinkage? ==> LinkageName(l) == "<invalid linkage>"
                                  && LinkageFromName(LinkageName(l)).None?
  {
  }

  lemma LinkageNamesInjective(a: Linkage, b: Linkage)
    requires !a.InvalidLinkage? && !b.InvalidLinkage?
    ensures LinkageName(a) == LinkageName(b) <==> a == b
  {
    LinkageRoundTrip(a);
    LinkageRoundTrip(b);
  }

  function VisibilityName(v: Visibility): (r: string)
    ensures |r| > 0
    ensures v.Default? <==> r == "default"
    ensures v.Hidden? <==> r == "hidden"
    ensures v.Protected? <==> r == "protected"
  {
    match v
    case Default => "default"
    case Hidden => "hidden"
    case Protected => "protected"
    case InvalidVisibility(_) => "<invalid visibility>"
  }

  function AtomicOrderingName(o: AtomicOrdering): (r: string)
    ensures (r == "") <==> o.NotAtomic?
  {
    match o
    case NotAtomic => ""
    case Unordered => "unordered"
    case Monotonic => "monotonic"
    case Acquire => "acquire"
    case Release => "release"
    case AcquireRelease => "acq_rel"
    case SequentiallyConsistent => "seq_cst"
    case InvalidOrdering(_) => "<invalid atomic ordering>"
  }

  function AtomicOrderingFromName(s: string): Option<AtomicOrdering> {
    if s == "" then Some(NotAtomic)
    else if s == "unordered" then Some(Unordered)
    else if s == "monotonic" then Some(Monotonic)
    else if s == "acquire" then Some(Acquire)
    else if s == "release" then Some(Release)
    else if s == "acq_rel" then Some(AcquireRelease)
    else if s == "seq_cst" then Some(SequentiallyConsistent)
    else None
  }

  lemma AtomicOrderingRoundTrip(o: AtomicOrdering)
    ensures !o.InvalidOrdering? ==> AtomicOrderingFromName(AtomicOrderingName(o)) == Some(o)
    ensures o.InvalidOrdering? ==> AtomicOrderingName(o) == "<invalid atomic ordering>"
                                   && AtomicOrderingFromName(AtomicOrderingName(o)).None?
  {
  }
}
