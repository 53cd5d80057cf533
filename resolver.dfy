/** The state of a dependency-resolution session. The session keeps the pool
    it works on, the extra requirements and conflicts the user added, the
    tables of dependencies and item properties to ignore, and a few mode
    flags. The solving itself is done by a SAT solver outside this model: the
    operations that call it are declared here with their frames only. */
module Solver {

  /** Three-valued setting: off, on, or the solver's own default. */
  datatype TriState = FALSE | TRUE | DEFAULT

  // Entities the session refers to. Their contents belong to the pool and
  // the solver, not to the session, so they are opaque identities here.
  datatype ResPool = ResPool(poolId: nat)
  datatype PoolItem = PoolItem(itemId: nat)
  datatype Capability = Capability(capId: nat)
  datatype SerialNumberWatcher = SerialNumberWatcher(lastSerial: nat)
  datatype ResolverProblem = ResolverProblem(problemId: nat)
  datatype ProblemSolution = ProblemSolution(solutionId: nat)
  datatype UpgradeStatistics = UpgradeStatistics(statsId: nat)

  /** One ignore table: pairs of an item and a capability, duplicates allowed. */
  type IgnoreMap = multiset<(PoolItem, Capability)>

  /** A snapshot of every field of a session. */
  datatype Session = Session(
    pool: ResPool,
    poolChanged: SerialNumberWatcher,
    testing: bool,
    problemItems: seq<PoolItem>,
    unmaintainedItems: set<PoolItem>,
    extraRequires: set<Capability>,
    extraConflicts: set<Capability>,
    ignoreConflicts: IgnoreMap,
    ignoreRequires: IgnoreMap,
    ignoreObsoletes: IgnoreMap,
    ignoreArchitecture: seq<PoolItem>,
    ignoreInstalledItem: seq<PoolItem>,
    ignoreArchitectureItem: seq<PoolItem>,
    ignoreVendorItem: seq<PoolItem>,
    forceResolve: bool,
    upgradeMode: bool,
    verifying: bool,
    onlyRequires: TriState)

  class Resolver {
    var pool: ResPool
    var poolChanged: SerialNumberWatcher
    var testing: bool
    var problemItems: seq<PoolItem>
    var unmaintainedItems: set<PoolItem>
    var extraRequires: set<Capability>
    var extraConflicts: set<Capability>
    var ignoreConflicts: IgnoreMap
    var ignoreRequires: IgnoreMap
    var ignoreObsoletes: IgnoreMap
    var ignoreArchitecture: seq<PoolItem>
    var ignoreInstalledItem: seq<PoolItem>
    var ignoreArchitectureItem: seq<PoolItem>
    var ignoreVendorItem: seq<PoolItem>
    var forceResolve: bool
    var upgradeMode: bool
    var verifying: bool
    var onlyRequires: TriState

    function State(): Session
      reads this
    {
      Session(pool, poolChanged, testing, problemItems, unmaintainedItems,
              extraRequires, extraConflicts, ignoreConflicts, ignoreRequires, ignoreObsoletes,
              ignoreArchitecture, ignoreInstalledItem, ignoreArchitectureItem, ignoreVendorItem,
              forceResolve, upgradeMode, verifying, onlyRequires)
    }

    // ------------------------------------------------------------------
    // Inline accessors.

    /** Replaces the pool and nothing else. */
    method SetPool(p: ResPool)
      modifies this`pool
      ensures State() == old(State()).(pool := p)
      ensures ExtraRequires() == old(ExtraRequires()) && ExtraConflicts() == old(ExtraConflicts())
      ensures ProblematicUpdateItems() == old(ProblematicUpdateItems())
      ensures ForceResolve() == old(ForceResolve()) && OnlyRequires() == old(OnlyRequires())
      ensures Testing() == old(Testing())
    {
      pool := p;
    }

    function ExtraRequires(): (r: set<Capability>)
      reads this
      ensures r == State().extraRequires
    {
      extraRequires
    }

    function ExtraConflicts(): (r: set<Capability>)
      reads this
      ensures r == State().extraConflicts
    {
      extraConflicts
    }

    method SetForceResolve(force: bool)
      modifies this`forceResolve
      ensures State() == old(State()).(forceResolve := force)
      ensures ForceResolve() == force
    {
      forceResolve := force;
    }

    function ForceResolve(): (r: bool)
      reads this
      ensures r == State().forceResolve
    {
      forceResolve
    }

    method SetOnlyRequires(state: TriState)
      modifies this`onlyRequires
      ensures State() == old(State()).(onlyRequires := state)
      ensures OnlyRequires() == state
    {
      onlyRequires := state;
    }

    function OnlyRequires(): (r: TriState)
      reads this
      ensures r == State().onlyRequires
    {
      onlyRequires
    }

    /** The items the last upgrade found problematic. */
    function ProblematicUpdateItems(): (r: seq<PoolItem>)
      reads this
      ensures r == State().problemItems
    {
      problemItems
    }

    function Testing(): (r: bool)
      reads this
      ensures r == State().testing
    {
      testing
    }

    method SetTesting(test: bool)
      modifies this`testing
      ensures State() == old(State()).(testing := test)
      ensures Testing() == test
    {
      testing := test;
    }

    // ------------------------------------------------------------------
    // Operations defined outside the class declaration. Their effect is
    // decided by the solver and is not shown here: each is given only its
    // frame and an arbitrary result, and promises nothing about either.

    constructor (p: ResPool)
    {
      pool := p;
    }

    method Pool() returns (p: ResPool)
    {
      p := *;
    }

    method AddExtraRequire(capability: Capability)
      modifies this
    {
    }

    method RemoveExtraRequire(capability: Capability)
      modifies this
    {
    }

    method AddExtraConflict(capability: Capability)
      modifies this
    {
    }

    method RemoveExtraConflict(capability: Capability)
      modifies this
    {
    }

    method AddIgnoreConflict(item: PoolItem, capability: Capability)
      modifies this
    {
    }

    method AddIgnoreRequires(item: PoolItem, capability: Capability)
      modifies this
    {
    }

    method AddIgnoreObsoletes(item: PoolItem, capability: Capability)
      modifies this
    {
    }

    method AddIgnoreInstalledItem(item: PoolItem)
      modifies this
    {
    }

    method AddIgnoreArchitectureItem(item: PoolItem)
      modifies this
    {
    }

    method AddIgnoreVendorItem(item: PoolItem)
      modifies this
    {
    }

    method VerifySystem() returns (success: bool)
      modifies this
    {
      success := *;
    }

    method ResolvePool() returns (success: bool)
      modifies this
    {
      success := *;
    }

    method DoUpgrade(stats: UpgradeStatistics) returns (statsOut: UpgradeStatistics)
      modifies this
    {
      statsOut := *;
    }

    method Problems() returns (problems: seq<ResolverProblem>)
    {
      problems := *;
    }

    method ApplySolutions(solutions: seq<ProblemSolution>)
      modifies this
    {
    }

    method Undo()
      modifies this
    {
    }

    method Reset(keepExtras: bool := false)
      modifies this
    {
    }

    method CheckUnmaintainedItems()
      modifies this
    {
    }

    method DoesObsoleteCapability(candidate: PoolItem, cap: Capability) returns (obsoletes: bool)
      modifies this
    {
      obsoletes := *;
    }

    method DoesObsoleteItem(candidate: PoolItem, installed: PoolItem) returns (obsoletes: bool)
      modifies this
    {
      obsoletes := *;
    }
  }
}
