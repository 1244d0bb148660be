/** The shared status badge (`StatusBadge`): the label and colour classes shown
    for a trip, driver or passenger status. */
module StatusBadge {
  import opened Common

  datatype Config = Config(text: string, colour: string)

  const Yellow := "bg-yellow-100 text-yellow-800 border-yellow-200"
  const Green := "bg-green-100 text-green-800 border-green-200"
  const Blue := "bg-blue-100 text-blue-800 border-blue-200"
  const Red := "bg-red-100 text-red-800 border-red-200"
  const Orange := "bg-orange-100 text-orange-800 border-orange-200"
  const Gray := "bg-gray-100 text-gray-800 border-gray-200"

  /** The statuses with a fixed configuration. */
  const Known: set<string> := {"pending", "active", "completed", "cancelled", "approved", "rejected", "suspended"}

  /** The `configs` table built for `status`: seven fixed entries and a
      `default` entry that shows the status text itself. */
  function Configs(status: string): map<string, Config> {
    map["pending" := Config("Pending", Yellow),
        "active" := Config("Active", Green),
        "completed" := Config("Completed", Blue),
        "cancelled" := Config("Cancelled", Red),
        "approved" := Config("Approved", Green),
        "rejected" := Config("Rejected", Red),
        "suspended" := Config("Suspended", Orange),
        "default" := Config(status, Gray)]
  }

  /** `getStatusConfig`: the entry for the status, or the `default` entry. It is
      defined for every string. */
  function StatusConfig(status: string): (c: Config)
    ensures status !in Known ==> c == Config(status, Gray)
    ensures status in Known ==> c.colour != Gray && c.text != status
  {
    var configs := Configs(status);
    if status in configs then configs[status] else configs["default"]
  }

  /** Each known status has its fixed capitalised label and colour. */
  lemma KnownConfigs()
    ensures StatusConfig("pending") == Config("Pending", Yellow)
    ensures StatusConfig("active") == Config("Active", Green)
    ensures StatusConfig("completed") == Config("Completed", Blue)
    ensures StatusConfig("cancelled") == Config("Cancelled", Red)
    ensures StatusConfig("approved") == Config("Approved", Green)
    ensures StatusConfig("rejected") == Config("Rejected", Red)
    ensures StatusConfig("suspended") == Config("Suspended", Orange)
  {
  }

  /** `active` and `approved` share the green colour and `cancelled` and
      `rejected` the red one; the literal status `default` falls back like any
      unknown status. */
  lemma SharedColours()
    ensures StatusConfig("active").colour == StatusConfig("approved").colour
    ensures StatusConfig("cancelled").colour == StatusConfig("rejected").colour
    ensures StatusConfig("default") == Config("default", Gray)
  {
  }
}
