/** The two rule trees the server is built with. */
module SettingsRules {
  import opened SettingsSpec

  const RULES: Rules := Section(map[
    "encryption" := Section(map["passphrase" := Leaf]),
    "messages" := Section(map[
      "send_interval_min" := Leaf, "send_interval_max" := Leaf, "limit_period" := Leaf, "limit_value" := Leaf,
      "sim_selection_mode" := Leaf, "log_lifetime_days" := Leaf, "work_hours_enabled" := Leaf,
      "work_hours_start" := Leaf, "work_hours_end" := Leaf]),
    "ping" := Section(map["interval_seconds" := Leaf]),
    "logs" := Section(map["lifetime_days" := Leaf]),
    "webhooks" := Section(map["internet_required" := Leaf, "retry_count" := Leaf, "signing_key" := Leaf]),
    "gateway" := Section(map["notification_channel" := Leaf]),
    "receiver" := Section(map["content_provider_enabled" := Leaf])])

  const RULES_PUBLIC: Rules := Section(map[
    "encryption" := Section(map[]),
    "messages" := Section(map[
      "send_interval_min" := Leaf, "send_interval_max" := Leaf, "limit_period" := Leaf, "limit_value" := Leaf,
      "sim_selection_mode" := Leaf, "log_lifetime_days" := Leaf, "work_hours_enabled" := Leaf,
      "work_hours_start" := Leaf, "work_hours_end" := Leaf]),
    "ping" := Section(map["interval_seconds" := Leaf]),
    "logs" := Section(map["lifetime_days" := Leaf]),
    "webhooks" := Section(map["internet_required" := Leaf, "retry_count" := Leaf]),
    "gateway" := Section(map["notification_channel" := Leaf]),
    "receiver" := Section(map["content_provider_enabled" := Leaf])])

  lemma PublicRulesAreRules()
    ensures SubRules(RULES_PUBLIC, RULES)
  {
    forall f | f in RULES_PUBLIC.rules
      ensures f in RULES.rules && RULES_PUBLIC.rules[f].Section? == RULES.rules[f].Section?
      ensures RULES_PUBLIC.rules[f].Section? ==> SubRules(RULES_PUBLIC.rules[f], RULES.rules[f])
    {
      PublicSection(f);
    }
  }

  lemma PublicSection(f: string)
    requires f in RULES_PUBLIC.rules
    ensures f in RULES.rules && RULES_PUBLIC.rules[f].Section? && RULES.rules[f].Section?
    ensures SubRules(RULES_PUBLIC.rules[f], RULES.rules[f])
  {
    SectionIsSection(RULES_PUBLIC.rules[f], RULES.rules[f]);
  }

  lemma SectionIsSection(small: Rules, large: Rules)
    requires forall f | f in small.rules :: f in large.rules && small.rules[f].Leaf? && large.rules[f].Leaf?
    ensures SubRules(small, large)
  {
  }

  /** The two leaves that the public rules leave out, and there is no other. */
  lemma SecretLeaves(section: string, leaf: string)
    requires LeafPath(RULES, [section, leaf])
    ensures section in RULES_PUBLIC.rules && RULES_PUBLIC.rules[section].Section?
    ensures leaf !in RULES_PUBLIC.rules[section].rules <==>
            [section, leaf] in {["encryption", "passphrase"], ["webhooks", "signing_key"]}
  {
    assert [section, leaf][1..] == [leaf];
    assert [section, leaf] == ["encryption", "passphrase"] <==> section == "encryption" && leaf == "passphrase";
    assert [section, leaf] == ["webhooks", "signing_key"] <==> section == "webhooks" && leaf == "signing_key";
  }
}
