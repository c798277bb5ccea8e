/** The order status badge (`src/components/OrderStatusBadge.tsx`): a constant
    table from the six statuses to their badge styles, looked up with the
    Pending entry as fallback. The lookup indexes a plain object, so it is
    modelled together with the names every plain object inherits. */
module OrderStatusBadge {
  import opened Wrappers
  import opened AdminTypes

  datatype StatusConfig = StatusConfig(caption: string, classes: string, dot: string)

  const PendingConfig := StatusConfig("Pending", "bg-amber-500/12 text-amber-600 border-amber-500/25", "bg-amber-500")

  /** `STATUS_CONFIG`, with its keys in declaration order. */
  const StatusTable: seq<(string, StatusConfig)> := [
    ("Pending", PendingConfig),
    ("Confirmed", StatusConfig("Confirmed", "bg-blue-500/12 text-blue-600 border-blue-500/25", "bg-blue-500")),
    ("Processing", StatusConfig("Processing", "bg-violet-500/12 text-violet-600 border-violet-500/25", "bg-violet-500")),
    ("Shipped", StatusConfig("Shipped", "bg-cyan-500/12 text-cyan-600 border-cyan-500/25", "bg-cyan-500")),
    ("Delivered", StatusConfig("Delivered", "bg-green-500/12 text-green-600 border-green-500/25", "bg-green-500")),
    ("Cancelled", StatusConfig("Cancelled", "bg-red-500/12 text-red-600 border-red-500/25", "bg-red-500"))
  ]

  /** `Object.keys(STATUS_CONFIG)`, the choices of the status select. */
  function Keys(table: seq<(string, StatusConfig)>): (ks: seq<string>)
    ensures |ks| == |table|
    ensures forall i | 0 <= i < |table| :: ks[i] == table[i].0
  {
    if table == [] then [] else [table[0].0] + Keys(table[1..])
  }

  /** The own entry for `status`, if the table has one. */
  function Own(table: seq<(string, StatusConfig)>, status: string): (c: Option<StatusConfig>)
    ensures c.Some? <==> exists i | 0 <= i < |table| :: table[i].0 == status
    ensures c.Some? ==> exists i | 0 <= i < |table| :: table[i] == (status, c.value)
  {
    if table == [] then None
    else if table[0].0 == status then
      assert table[0] == (status, table[0].1);
      Some(table[0].1)
    else
      var c := Own(table[1..], status);
      assert forall i | 1 <= i < |table| :: table[i] == table[1..][i - 1];
      c
  }

  /** Exactly the six order statuses are configured, in order, and each entry
      is labelled with its own status. */
  lemma TableCoversStatuses()
    ensures Keys(StatusTable) == OrderStatuses
    ensures forall i | 0 <= i < |StatusTable| :: StatusTable[i].1.caption == StatusTable[i].0
  {
  }

  /** The names every plain object inherits from `Object.prototype`; indexing
      the table with one of them yields the inherited member, not
      `undefined`. */
  const InheritedNames: set<string> := {
    "constructor", "hasOwnProperty", "isPrototypeOf", "propertyIsEnumerable",
    "toLocaleString", "toString", "valueOf", "__proto__",
    "__defineGetter__", "__defineSetter__", "__lookupGetter__", "__lookupSetter__"}

  /** What `STATUS_CONFIG[status]` evaluates to. */
  datatype Indexed = Entry(config: StatusConfig) | InheritedMember(name: string) | Undefined

  function Index(status: string): (r: Indexed)
    ensures Own(StatusTable, status).Some? ==> r == Entry(Own(StatusTable, status).value)
    ensures Own(StatusTable, status).None? && status in InheritedNames ==> r == InheritedMember(status)
    ensures r == Undefined <==> Own(StatusTable, status).None? && status !in InheritedNames
  {
    match Own(StatusTable, status)
    case Some(c) => Entry(c)
    case None => if status in InheritedNames then InheritedMember(status) else Undefined
  }

  /** The lookup as written: `STATUS_CONFIG[status] ?? STATUS_CONFIG.Pending`.
      Only `undefined` (or `null`) falls back. */
  function BadgeAsWritten(status: string): (r: Indexed)
    ensures r != Undefined
    ensures Index(status) != Undefined ==> r == Index(status)
  {
    match Index(status)
    case Undefined => Entry(PendingConfig)
    case other => other
  }

  /** A status named after an inherited member gets no configuration: the
      badge is handed a function, whose `label` and `classes` are undefined. */
  lemma InheritedNameBypassesFallback()
    ensures BadgeAsWritten("constructor") == InheritedMember("constructor")
    ensures !BadgeAsWritten("constructor").Entry?
  {
    assert Own(StatusTable, "constructor").None?;
  }

  /** The evident intent: the own entry of a configured status, the Pending
      entry for anything else. */
  function BadgeFor(status: string): (c: StatusConfig)
    ensures status in OrderStatuses ==> c.caption == status
    ensures status !in OrderStatuses ==> c == PendingConfig
  {
    TableCoversStatuses();
    match Own(StatusTable, status)
    case Some(c) => c
    case None => PendingConfig
  }

  /** The corrected lookup agrees with the written one on every status that is
      not an inherited name. */
  lemma BadgeAgrees(status: string)
    requires status !in InheritedNames
    ensures BadgeAsWritten(status) == Entry(BadgeFor(status))
  {
  }

  /** Every configured label is one of the six statuses, so the badge only
      ever shows a known status. */
  lemma BadgeLabelKnown(status: string)
    ensures BadgeFor(status).caption in OrderStatuses
  {
  }
}
