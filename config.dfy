/**
  The monitor's settings: the comma-separated exclusion lists of the
  `[Filter]` section and their fallbacks, and the settings records the
  notifiers and the poll cycle read.
*/
module Config {
  import opened PyValues

  /** `ConfigManager._parse_list`: split at commas and strip every item; "" gives no items. */
  function ParseList(s: string): (r: seq<string>)
    ensures s == "" ==> r == []
    ensures s != "" ==> |r| == |Split(s, ',')|
    ensures forall k :: 0 <= k < |r| ==> r[k] == Strip(Split(s, ',')[k])
  {
    if s == "" then []
    else
      var parts := Split(s, ',');
      seq(|parts|, k requires 0 <= k < |parts| => Strip(parts[k]))
  }

  /** A non-empty list string has one item more than it has commas, empty items included. */
  lemma ParseListLength(s: string)
    requires s != ""
    ensures |ParseList(s)| == Count(s, ',') + 1
  {
    SplitCount(s, ',');
  }

  /** No item carries surrounding white space or a comma. */
  lemma ParseListItems(s: string, k: nat)
    requires k < |ParseList(s)|
    ensures var item := ParseList(s)[k];
      ',' !in item && (item == [] || (!IsSpace(item[0]) && !IsSpace(item[|item| - 1])))
  {
    var part := Split(s, ',')[k];
    var item := ParseList(s)[k];
    StripFacts(part);
    assert item == part[LeadingSpaces(part)..LeadingSpaces(part) + |item|];
    assert forall c :: c in item ==> c in part;
  }

  /** Empty segments stay in the list as empty items. */
  lemma ParseListKeepsEmpty()
    ensures ParseList("a,,b") == ["a", "", "b"]
  {
    var items := ["a", "", "b"];
    assert Join(items, ",") == "a,,b" by {
      assert Join(items[2..], ",") == "b";
      assert Join(items[1..], ",") == ",b";
    }
    ParseJoin(items);
  }

  /** A string without surrounding white space is left as it is by `strip`. */
  lemma StripClean(x: string)
    requires x == [] || (!IsSpace(x[0]) && !IsSpace(x[|x| - 1]))
    ensures Strip(x) == x
  {
    StripFacts(x);
    assert LeadingSpaces(x) == 0;
  }

  /**
    Writing clean items with commas and parsing them back gives the items
    (the one list it cannot give back is the single empty item, which
    prints as "" and parses as no items).
  */
  lemma ParseJoin(items: seq<string>)
    requires items != [] && items != [""]
    requires forall k :: 0 <= k < |items| ==> ',' !in items[k]
    requires forall k :: 0 <= k < |items| ==> items[k] == [] || (!IsSpace(items[k][0]) && !IsSpace(items[k][|items[k]| - 1]))
    ensures ParseList(Join(items, ",")) == items
  {
    var s := Join(items, ",");
    SplitJoin(items, ',');
    assert s != "" by {
      if |items| == 1 {
        assert s == items[0];
      } else {
        assert s == items[0] + "," + Join(items[1..], ",");
      }
    }
    forall k | 0 <= k < |items| ensures ParseList(s)[k] == items[k] {
      StripClean(items[k]);
    }
  }

  /** An INI document: section name to key to raw value. */
  type Ini = map<string, map<string, string>>

  /** `ConfigParser.get(section, key, fallback=...)`. */
  function IniGet(ini: Ini, section: string, key: string, fallback: string): (r: string)
    ensures section in ini && key in ini[section] ==> r == ini[section][key]
    ensures !(section in ini && key in ini[section]) ==> r == fallback
  {
    if section in ini && key in ini[section] then ini[section][key] else fallback
  }

  /** The exclusion settings the notifiers' filter reads. */
  datatype FilterConfig = FilterConfig(
    notifyAutoLock: bool,
    excludedUsers: seq<string>,
    excludedActions: seq<string>,
    excludedTriggers: seq<string>)

  /** The three `[Filter]` lists, each falling back to the empty string and parsed as a list. */
  function FilterFromIni(ini: Ini, notifyAutoLock: bool): (f: FilterConfig)
    ensures f.notifyAutoLock == notifyAutoLock
    ensures f.excludedUsers == ParseList(IniGet(ini, "Filter", "excluded_users", ""))
    ensures f.excludedActions == ParseList(IniGet(ini, "Filter", "excluded_actions", ""))
    ensures f.excludedTriggers == ParseList(IniGet(ini, "Filter", "excluded_triggers", ""))
  {
    FilterConfig(notifyAutoLock,
      ParseList(IniGet(ini, "Filter", "excluded_users", "")),
      ParseList(IniGet(ini, "Filter", "excluded_actions", "")),
      ParseList(IniGet(ini, "Filter", "excluded_triggers", "")))
  }

  /** A missing `[Filter]` key, or a missing section, excludes nothing. */
  lemma MissingFilterKeys(ini: Ini, notifyAutoLock: bool)
    requires "Filter" !in ini
    ensures FilterFromIni(ini, notifyAutoLock) == FilterConfig(notifyAutoLock, [], [], [])
  {
  }

  datatype EmailSettings = EmailSettings(
    smtpServer: string,
    smtpPort: int,
    sender: string,
    recipient: string,
    username: string,
    password: string,
    useHtml: bool)

  datatype TelegramSettings = TelegramSettings(
    botToken: string,
    chatId: string,
    useEmoji: bool,
    format: string)

  /** A fixed lock id configured instead of asking the cloud for the lock list. */
  datatype ExplicitLock = ExplicitLock(useExplicitId: bool, smartlockId: Value)

  /**
    The settings the notifiers and the poll cycle read. `explicitLock` is
    `None` when the configuration object has no `use_explicit_id` /
    `smartlock_id` attributes, which is what the configuration loader
    produces.
  */
  datatype Settings = Settings(
    notificationType: string,
    digestMode: bool,
    digestInterval: int,
    subjectPrefix: string,
    filter: FilterConfig,
    email: EmailSettings,
    telegram: TelegramSettings,
    explicitLock: Option<ExplicitLock>)
}
