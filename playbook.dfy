/**
 * The Ansible playbook generator of the Ansible dialog.
 *
 * The playbook is a fixed template with a conditional `become` line, three
 * list expansions (one `      - <item>` line per element of the packages,
 * services and users lists, or a blank line for an empty list), a cache task
 * that is either the `apt` update block or a `# Skipped` placeholder, and a
 * fixed tail of tasks and handlers that refer to the lists only by name.
 *
 * The document is modelled line by line, as `Unlines(PlaybookLines(c))`; the
 * list and cache interpolations are tied to the template's own `join` and
 * ternary by rendering lemmas.
 */
module Playbook {
  import opened Text

  datatype PlaybookConfig = PlaybookConfig(
    hostGroup: string,
    packages: seq<string>,
    services: seq<string>,
    users: seq<string>,
    playbookName: string,
    become: bool,
    updateCache: bool)

  /** The dialog's initial state. */
  function DefaultConfig(): PlaybookConfig
  {
    PlaybookConfig("webservers", ["nginx", "nodejs", "git"], ["nginx", "ssh"], ["deploy"],
                   "server-setup", true, true)
  }

  /**
   * The text fields are single-line `<input>`s and the list entries come from
   * checkboxes and a single-line comma list, so no value holds a line break.
   */
  predicate SingleLineFields(c: PlaybookConfig)
  {
    && '\n' !in c.hostGroup && '\n' !in c.playbookName
    && SingleLines(c.packages) && SingleLines(c.services) && SingleLines(c.users)
  }

  // ---------------------------------------------------------------------------
  // The template, line by line

  const ItemPrefix := "      - "

  /** `xs.map(x => `      - ${x}`)`. */
  function ItemLines(xs: seq<string>): seq<string>
    decreases |xs|
  {
    if |xs| == 0 then [] else [ItemPrefix + xs[0]] + ItemLines(xs[1..])
  }

  /** A list expansion as lines: the joined items, or one empty line for no items. */
  function ListLines(xs: seq<string>): seq<string>
  {
    if |xs| == 0 then [""] else ItemLines(xs)
  }

  /** The `become` slot: `become: yes` when set, otherwise the bare indent. */
  function BecomeLine(become: bool): string
  {
    "  " + (if become then "become: yes" else "")
  }

  /** The name and hosts lines. */
  function HeadLines(c: PlaybookConfig): seq<string>
  {
    ["---", "- name: " + c.playbookName + " playbook", "  hosts: " + c.hostGroup]
  }

  const VarsLines: seq<string> := ["  ", "  vars:", "    packages_to_install:"]
  const ServicesKey := "    services_to_enable:"
  const UsersKey := "    users_to_create:"
  const TasksKey := "  tasks:"

  /** Everything above the package items. */
  function Front(c: PlaybookConfig): seq<string>
  {
    HeadLines(c) + [BecomeLine(c.become)] + VarsLines
  }

  function PackagesPart(c: PlaybookConfig): seq<string>
  {
    ListLines(c.packages) + ["    "]
  }

  function ServicesPart(c: PlaybookConfig): seq<string>
  {
    [ServicesKey] + ListLines(c.services) + ["    "]
  }

  function UsersPart(c: PlaybookConfig): seq<string>
  {
    [UsersKey] + ListLines(c.users) + [""]
  }

  /** `    - name: <name>`, the first line of a task or handler. */
  function TaskName(name: string): string
  {
    "    - name: " + name
  }

  /** `      loop: "{{ <list> }}"`, how a task refers to a list. */
  function Loop(list: string): string
  {
    "      loop: \"{{ " + list + " }}\""
  }

  const ItemName := "        name: \"{{ item }}\""

  /** The body of the cache task: the `apt` update block, or `# Skipped`. */
  function CacheBody(updateCache: bool): seq<string>
  {
    if updateCache then ["      apt:", "        update_cache: yes", "        cache_valid_time: 3600"]
    else ["      # Skipped"]
  }

  const CacheName := TaskName("Update package cache")
  const WhenDebian := "      when: " + "ansible_os_family == \"Debian\""

  function CacheTask(updateCache: bool): seq<string>
  {
    [CacheName] + CacheBody(updateCache) + [WhenDebian, "      "]
  }

  const InstallTask: seq<string> := [
    TaskName("Install required packages"),
    "      package:",
    ItemName,
    "        state: present",
    Loop("packages_to_install"),
    "      " ]

  /** The attributes every created user gets. */
  const UserAttributes: seq<string> := [
    "        state: present",
    "        create_home: yes",
    "        shell: /bin/bash" ]

  const UsersTask: seq<string> :=
    [TaskName("Create users"), "      user:", ItemName] + UserAttributes + [Loop("users_to_create"), "      "]

  const ServicesTask: seq<string> := [
    TaskName("Start and enable services"),
    "      service:",
    ItemName,
    "        state: started",
    "        enabled: yes",
    Loop("services_to_enable"),
    "      " ]

  const FirewallTask: seq<string> := [
    TaskName("Configure firewall for web traffic"),
    "      ufw:",
    "        rule: allow",
    "        port: '80'",
    "        proto: tcp",
    "      when: " + "\"'nginx' in services_to_enable\"",
    "      " ]

  const Handlers: seq<string> := [
    "  handlers:",
    TaskName("restart nginx"),
    "      service:",
    "        name: nginx",
    "        state: restarted",
    "        ",
    TaskName("reload systemd"),
    "      systemd:",
    "        daemon_reload: yes" ]

  /** The lines after `  tasks:`. */
  function TaskSection(updateCache: bool): seq<string>
  {
    CacheTask(updateCache) + InstallTask + UsersTask + ServicesTask + FirewallTask + Handlers
  }

  function PlaybookLines(c: PlaybookConfig): seq<string>
  {
    Front(c) + PackagesPart(c) + ServicesPart(c) + UsersPart(c) + ([TasksKey] + TaskSection(c.updateCache))
  }

  /** `generateAnsiblePlaybook`. */
  function GeneratePlaybook(c: PlaybookConfig): string
  {
    Unlines(PlaybookLines(c))
  }

  // ---------------------------------------------------------------------------
  // The interpolations as the template writes them

  /** The items of a list expansion, as the template's `map` builds them. */
  function Items(xs: seq<string>): seq<string>
  {
    seq(|xs|, i requires 0 <= i < |xs| => ItemPrefix + xs[i])
  }

  lemma {:induction false} ItemLinesAreItems(xs: seq<string>)
    ensures ItemLines(xs) == Items(xs)
    decreases |xs|
  {
    if |xs| > 0 {
      ItemLinesAreItems(xs[1..]);
    }
  }

  /**
   * A list expansion renders as `xs.map(x => `      - ${x}`).join('\n')`:
   * one item line per element, and the empty text for an empty list.
   */
  lemma ListRendering(xs: seq<string>)
    ensures Unlines(ListLines(xs)) == JoinWith(Items(xs), "\n")
  {
    ItemLinesAreItems(xs);
  }

  /**
   * The cache task body renders as the template's ternary after the six-space
   * indent.
   */
  lemma CacheRendering(updateCache: bool)
    ensures Unlines(CacheBody(updateCache))
            == "      " + (if updateCache
                           then "apt:" + "\n" + "        update_cache: yes" + "\n"
                                + "        cache_valid_time: 3600"
                           else "# Skipped")
  {
    if updateCache {
      var a, b, d := "      apt:", "        update_cache: yes", "        cache_valid_time: 3600";
      UnlinesThree(a, b, d);
      assert a == "      " + "apt:";
      Regroup3("      ", "apt:", b, d);
    }
  }

  lemma UnlinesThree(a: string, b: string, d: string)
    ensures Unlines([a, b, d]) == a + "\n" + b + "\n" + d
  {
    assert [b, d][1..] == [d];
    assert JoinWith([b, d], "\n") == b + "\n" + d;
    assert [a, b, d][1..] == [b, d];
    assert JoinWith([a, b, d], "\n") == a + "\n" + (b + "\n" + d);
  }

  lemma Regroup3(i: string, a: string, b: string, d: string)
    ensures (i + a) + "\n" + b + "\n" + d == i + (a + "\n" + b + "\n" + d)
  {
  }

  // ---------------------------------------------------------------------------
  // Line shapes

  lemma NotAtFour(a: seq<string>, b: seq<string>, c: seq<string>, d: seq<string>, k: nat, ch: char)
    requires NotAt(a, k, ch) && NotAt(b, k, ch) && NotAt(c, k, ch) && NotAt(d, k, ch)
    ensures NotAt(a + b + c + d, k, ch)
  {
    NotAtAppend(a, b, k, ch);
    NotAtAppend(a + b, c, k, ch);
    NotAtAppend(a + b + c, d, k, ch);
  }

  lemma {:induction false} ItemLinesNotAt(xs: seq<string>, k: nat, ch: char)
    requires k < |ItemPrefix| && ItemPrefix[k] != ch
    ensures NotAt(ItemLines(xs), k, ch)
    decreases |xs|
  {
    if |xs| > 0 {
      ItemLinesNotAt(xs[1..], k, ch);
      assert (ItemPrefix + xs[0])[k] == ItemPrefix[k];
      NotAtAppend([ItemPrefix + xs[0]], ItemLines(xs[1..]), k, ch);
    }
  }

  /** Item lines show only the item prefix at positions below 8. */
  lemma ListLinesNotAt(xs: seq<string>, k: nat, ch: char)
    requires k < |ItemPrefix| && ItemPrefix[k] != ch
    ensures NotAt(ListLines(xs), k, ch)
  {
    if |xs| > 0 {
      ItemLinesNotAt(xs, k, ch);
    }
  }

  lemma {:induction false} ItemLinesSingle(xs: seq<string>)
    requires SingleLines(xs)
    ensures SingleLines(ItemLines(xs))
    decreases |xs|
  {
    if |xs| > 0 {
      ItemLinesSingle(xs[1..]);
      assert '\n' !in ItemPrefix;
      SingleLinesAppend([ItemPrefix + xs[0]], ItemLines(xs[1..]));
    }
  }

  lemma ListLinesSingle(xs: seq<string>)
    requires SingleLines(xs)
    ensures SingleLines(ListLines(xs))
  {
    if |xs| > 0 {
      ItemLinesSingle(xs);
    }
  }

  // ---------------------------------------------------------------------------
  // Reading the list items back

  /** An item line: `      - ` followed by the item. */
  predicate IsItemLine(l: string)
  {
    |l| >= 8 && l[..8] == ItemPrefix
  }

  /** The items of the item lines of `ls`, in order. */
  function ListItems(ls: seq<string>): seq<string>
    decreases |ls|
  {
    if |ls| == 0 then []
    else (if IsItemLine(ls[0]) then [ls[0][8..]] else []) + ListItems(ls[1..])
  }

  lemma {:induction false} ListItemsAppend(a: seq<string>, b: seq<string>)
    ensures ListItems(a + b) == ListItems(a) + ListItems(b)
    decreases |a|
  {
    if |a| == 0 {
      assert a + b == b;
    } else {
      assert (a + b)[0] == a[0] && (a + b)[1..] == a[1..] + b;
      ListItemsAppend(a[1..], b);
    }
  }

  /** Lines without the item dash at position 6 hold no items. */
  lemma {:induction false} NoItems(ls: seq<string>)
    requires NotAt(ls, 6, '-')
    ensures ListItems(ls) == []
    decreases |ls|
  {
    if |ls| > 0 {
      assert !IsItemLine(ls[0]) by {
        if |ls[0]| >= 8 {
          assert ls[0][..8][6] == ls[0][6];
        }
      }
      NoItems(ls[1..]);
    }
  }

  /** The item lines of a list are read back as the list itself. */
  lemma {:induction false} ItemsReadBack(xs: seq<string>)
    ensures ListItems(ItemLines(xs)) == xs
    decreases |xs|
  {
    if |xs| > 0 {
      var l := ItemPrefix + xs[0];
      assert l[..8] == ItemPrefix && l[8..] == xs[0];
      ListItemsAppend([l], ItemLines(xs[1..]));
      ItemsReadBack(xs[1..]);
    }
  }

  /** A list block between two item-free parts reads back as the list. */
  lemma BlockItems(head: seq<string>, xs: seq<string>, tail: seq<string>)
    requires NotAt(head, 6, '-') && NotAt(tail, 6, '-')
    ensures ListItems(head + ListLines(xs) + tail) == xs
  {
    if |xs| == 0 {
      assert NotAt([""], 6, '-');
      NoItems([""]);
    } else {
      ItemsReadBack(xs);
    }
    NoItems(head);
    NoItems(tail);
    ListItemsAppend(head, ListLines(xs));
    ListItemsAppend(head + ListLines(xs), tail);
  }

  // ---------------------------------------------------------------------------
  // Facts about each part of the document

  /** The first lines show the fixed prefixes of their templates below position 8. */
  lemma FrontNotAt(c: PlaybookConfig, k: nat, ch: char)
    requires k < 8
    requires NotAt(["---", "- name: ", "  hosts: ", "  become: yes", "  "], k, ch)
    requires NotAt(VarsLines, k, ch)
    ensures NotAt(Front(c), k, ch)
  {
    var lits := ["---", "- name: ", "  hosts: ", "  become: yes", "  "];
    var h := HeadLines(c) + [BecomeLine(c.become)];
    forall j | 0 <= j < |h| ensures k >= |h[j]| || h[j][k] != ch {
      if j == 0 {
        assert h[0] == lits[0];
      } else if j == 1 {
        assert h[1][k] == lits[1][k];
      } else if j == 2 {
        assert h[2][k] == lits[2][k];
      } else if c.become {
        assert h[3] == lits[3];
      } else {
        assert h[3] == lits[4];
      }
    }
    NotAtAppend(h, VarsLines, k, ch);
  }

  lemma FrontSingle(c: PlaybookConfig)
    requires SingleLineFields(c)
    ensures SingleLines(Front(c))
  {
    assert '\n' !in "- name: " && '\n' !in " playbook" && '\n' !in "  hosts: ";
    assert '\n' !in "  become: yes";
    assert SingleLines(VarsLines);
  }

  lemma PackagesNotAt(c: PlaybookConfig, k: nat, ch: char)
    requires k < 8 && ItemPrefix[k] != ch && NotAt(["    "], k, ch)
    ensures NotAt(PackagesPart(c), k, ch)
  {
    ListLinesNotAt(c.packages, k, ch);
    NotAtAppend(ListLines(c.packages), ["    "], k, ch);
  }

  lemma ServicesNotAt(c: PlaybookConfig, k: nat, ch: char)
    requires k < 8 && ItemPrefix[k] != ch && NotAt([ServicesKey], k, ch) && NotAt(["    "], k, ch)
    ensures NotAt(ServicesPart(c), k, ch)
  {
    ListLinesNotAt(c.services, k, ch);
    NotAtAppend([ServicesKey], ListLines(c.services), k, ch);
    NotAtAppend([ServicesKey] + ListLines(c.services), ["    "], k, ch);
  }

  lemma UsersNotAt(c: PlaybookConfig, k: nat, ch: char)
    requires k < 8 && ItemPrefix[k] != ch && NotAt([UsersKey], k, ch)
    ensures NotAt(UsersPart(c), k, ch)
  {
    ListLinesNotAt(c.users, k, ch);
    NotAtAppend([UsersKey], ListLines(c.users), k, ch);
    NotAtAppend([UsersKey] + ListLines(c.users), [""], k, ch);
  }

  lemma PartsSingle(c: PlaybookConfig)
    requires SingleLineFields(c)
    ensures SingleLines(PackagesPart(c)) && SingleLines(ServicesPart(c)) && SingleLines(UsersPart(c))
  {
    ListLinesSingle(c.packages);
    ListLinesSingle(c.services);
    ListLinesSingle(c.users);
    assert SingleLines([ServicesKey]) && SingleLines([UsersKey]);
    SingleLinesAppend(ListLines(c.packages), ["    "]);
    SingleLinesAppend([ServicesKey], ListLines(c.services));
    SingleLinesAppend([ServicesKey] + ListLines(c.services), ["    "]);
    SingleLinesAppend([UsersKey], ListLines(c.users));
    SingleLinesAppend([UsersKey] + ListLines(c.users), [""]);
  }

  /** Task lines: single lines, no item dash at 6, no `b` at 2. */
  predicate TaskChunk(ls: seq<string>)
  {
    SingleLines(ls) && NotAt(ls, 6, '-') && NotAt(ls, 2, 'b')
  }

  lemma TaskChunkAppend(a: seq<string>, b: seq<string>)
    requires TaskChunk(a) && TaskChunk(b)
    ensures TaskChunk(a + b)
  {
    SingleLinesAppend(a, b);
    NotAtAppend(a, b, 6, '-');
    NotAtAppend(a, b, 2, 'b');
  }

  lemma TaskNameChunk(name: string)
    requires '\n' !in name
    ensures TaskChunk([TaskName(name)])
  {
    assert '\n' !in "    - name: ";
    assert TaskName(name)[2] == ' ' && TaskName(name)[6] == 'n';
  }

  lemma LoopChunk(list: string)
    requires '\n' !in list
    ensures TaskChunk([Loop(list)])
  {
    assert '\n' !in "      loop: \"{{ " && '\n' !in " }}\"";
    assert Loop(list)[2] == ' ' && Loop(list)[6] == 'l';
  }

  lemma CacheTaskChunk(updateCache: bool)
    ensures TaskChunk(CacheTask(updateCache))
  {
    TaskNameChunk("Update package cache");
    CacheBodyChunk(updateCache);
    WhenDebianChunk();
    TaskChunkAppend([CacheName], CacheBody(updateCache));
    TaskChunkAppend([CacheName] + CacheBody(updateCache), [WhenDebian, "      "]);
  }

  lemma CacheBodyChunk(updateCache: bool)
    ensures TaskChunk(CacheBody(updateCache))
  {
  }

  lemma WhenDebianChunk()
    ensures TaskChunk([WhenDebian, "      "])
  {
    assert '\n' !in "      when: " && '\n' !in "ansible_os_family == \"Debian\"";
    assert WhenDebian[2] == ' ' && WhenDebian[6] == 'w';
  }

  lemma ItemNameChunk()
    ensures TaskChunk([ItemName])
  {
  }

  lemma InstallTaskChunk()
    ensures TaskChunk(InstallTask)
  {
    TaskNameChunk("Install required packages");
    ItemNameChunk();
    LoopChunk("packages_to_install");
    assert TaskChunk(["      package:"]) && TaskChunk(["        state: present"]) && TaskChunk(["      "]);
    assert InstallTask == [InstallTask[0]] + ["      package:"] + [ItemName] + ["        state: present"]
                          + [InstallTask[4]] + ["      "];
    TaskChunkAppend([InstallTask[0]], ["      package:"]);
    TaskChunkAppend([InstallTask[0]] + ["      package:"], [ItemName]);
    TaskChunkAppend([InstallTask[0]] + ["      package:"] + [ItemName], ["        state: present"]);
    TaskChunkAppend([InstallTask[0]] + ["      package:"] + [ItemName] + ["        state: present"], [InstallTask[4]]);
    TaskChunkAppend([InstallTask[0]] + ["      package:"] + [ItemName] + ["        state: present"] + [InstallTask[4]], ["      "]);
  }

  lemma UsersTaskChunk()
    ensures TaskChunk(UsersTask)
  {
    TaskNameChunk("Create users");
    ItemNameChunk();
    LoopChunk("users_to_create");
    var head := [TaskName("Create users"), "      user:", ItemName];
    var tail := [Loop("users_to_create"), "      "];
    assert TaskChunk(head);
    assert TaskChunk(UserAttributes);
    assert TaskChunk(tail);
    TaskChunkAppend(head, UserAttributes);
    TaskChunkAppend(head + UserAttributes, tail);
  }

  lemma ServicesTaskChunk()
    ensures TaskChunk(ServicesTask)
  {
    TaskNameChunk("Start and enable services");
    ItemNameChunk();
    LoopChunk("services_to_enable");
    var mid := ["        state: started", "        enabled: yes"];
    assert TaskChunk(["      service:"]) && TaskChunk(mid) && TaskChunk(["      "]);
    assert ServicesTask == [ServicesTask[0]] + ["      service:"] + [ItemName] + mid + [ServicesTask[5]] + ["      "];
    TaskChunkAppend([ServicesTask[0]], ["      service:"]);
    TaskChunkAppend([ServicesTask[0]] + ["      service:"], [ItemName]);
    TaskChunkAppend([ServicesTask[0]] + ["      service:"] + [ItemName], mid);
    TaskChunkAppend([ServicesTask[0]] + ["      service:"] + [ItemName] + mid, [ServicesTask[5]]);
    TaskChunkAppend([ServicesTask[0]] + ["      service:"] + [ItemName] + mid + [ServicesTask[5]], ["      "]);
  }

  lemma FirewallRuleChunk()
    ensures TaskChunk(["      ufw:", "        rule: allow", "        port: '80'", "        proto: tcp"])
  {
  }

  lemma FirewallTaskChunk()
    ensures TaskChunk(FirewallTask)
  {
    TaskNameChunk("Configure firewall for web traffic");
    var w := "      when: " + "\"'nginx' in services_to_enable\"";
    assert '\n' !in "      when: " && '\n' !in "\"'nginx' in services_to_enable\"";
    assert w[2] == ' ' && w[6] == 'w';
    var mid := ["      ufw:", "        rule: allow", "        port: '80'", "        proto: tcp"];
    FirewallRuleChunk();
    assert TaskChunk([w, "      "]);
    assert FirewallTask == [FirewallTask[0]] + mid + [w, "      "];
    TaskChunkAppend([FirewallTask[0]], mid);
    TaskChunkAppend([FirewallTask[0]] + mid, [w, "      "]);
  }

  lemma RestartBodyChunk()
    ensures TaskChunk(["      service:", "        name: nginx", "        state: restarted", "        "])
  {
  }

  lemma ReloadBodyChunk()
    ensures TaskChunk(["      systemd:", "        daemon_reload: yes"])
  {
  }

  lemma HandlersChunk()
    ensures TaskChunk(Handlers)
  {
    TaskNameChunk("restart nginx");
    TaskNameChunk("reload systemd");
    var a := ["      service:", "        name: nginx", "        state: restarted", "        "];
    var b := ["      systemd:", "        daemon_reload: yes"];
    RestartBodyChunk();
    ReloadBodyChunk();
    assert TaskChunk(["  handlers:"]);
    assert Handlers == ["  handlers:"] + [Handlers[1]] + a + [Handlers[6]] + b;
    TaskChunkAppend(["  handlers:"], [Handlers[1]]);
    TaskChunkAppend(["  handlers:"] + [Handlers[1]], a);
    TaskChunkAppend(["  handlers:"] + [Handlers[1]] + a, [Handlers[6]]);
    TaskChunkAppend(["  handlers:"] + [Handlers[1]] + a + [Handlers[6]], b);
  }

  /** The task section is single lines, holds no list items and no `become`. */
  lemma TaskSectionChunk(updateCache: bool)
    ensures TaskChunk(TaskSection(updateCache))
  {
    var a := CacheTask(updateCache);
    CacheTaskChunk(updateCache);
    InstallTaskChunk();
    UsersTaskChunk();
    ServicesTaskChunk();
    FirewallTaskChunk();
    HandlersChunk();
    TaskChunkAppend(a, InstallTask);
    TaskChunkAppend(a + InstallTask, UsersTask);
    TaskChunkAppend(a + InstallTask + UsersTask, ServicesTask);
    TaskChunkAppend(a + InstallTask + UsersTask + ServicesTask, FirewallTask);
    TaskChunkAppend(a + InstallTask + UsersTask + ServicesTask + FirewallTask, Handlers);
  }

  lemma TasksPartChunk(updateCache: bool)
    ensures TaskChunk([TasksKey] + TaskSection(updateCache))
  {
    TaskSectionChunk(updateCache);
    assert TaskChunk([TasksKey]);
    TaskChunkAppend([TasksKey], TaskSection(updateCache));
  }

  // ---------------------------------------------------------------------------
  // The document

  /** The lines above `  tasks:`. */
  function Preamble(c: PlaybookConfig): seq<string>
  {
    Front(c) + PackagesPart(c) + ServicesPart(c) + UsersPart(c)
  }

  lemma PreambleSingle(c: PlaybookConfig)
    requires SingleLineFields(c)
    ensures SingleLines(Preamble(c))
  {
    FrontSingle(c);
    PartsSingle(c);
    SingleLinesAppend(Front(c), PackagesPart(c));
    SingleLinesAppend(Front(c) + PackagesPart(c), ServicesPart(c));
    SingleLinesAppend(Front(c) + PackagesPart(c) + ServicesPart(c), UsersPart(c));
  }

  lemma TasksKeyAbsent(c: PlaybookConfig)
    ensures TasksKey !in Preamble(c)
  {
    FrontNotAt(c, 2, 't');
    PackagesNotAt(c, 2, 't');
    ServicesNotAt(c, 2, 't');
    UsersNotAt(c, 2, 't');
    NotAtFour(Front(c), PackagesPart(c), ServicesPart(c), UsersPart(c), 2, 't');
    NotAtAbsent(Preamble(c), TasksKey, 2, 't');
  }

  lemma PlaybookSingleLines(c: PlaybookConfig)
    requires SingleLineFields(c)
    ensures SingleLines(PlaybookLines(c))
  {
    PreambleSingle(c);
    TasksPartChunk(c.updateCache);
    SingleLinesAppend(Preamble(c), [TasksKey] + TaskSection(c.updateCache));
  }

  /**
   * For single-line fields the playbook's lines are the template's lines,
   * and everything after `  tasks:` is the task section.
   */
  lemma PlaybookDocumentLines(c: PlaybookConfig)
    requires SingleLineFields(c)
    ensures Lines(GeneratePlaybook(c)) == PlaybookLines(c)
    ensures After(Lines(GeneratePlaybook(c)), TasksKey) == TaskSection(c.updateCache)
  {
    PlaybookSingleLines(c);
    LinesOfUnlines(PlaybookLines(c));
    TasksKeyAbsent(c);
    assert PlaybookLines(c) == Preamble(c) + [TasksKey] + TaskSection(c.updateCache);
    AfterMarkerLine(Preamble(c), TasksKey, TaskSection(c.updateCache));
  }

  lemma LoopsInTasks(updateCache: bool)
    ensures Loop("packages_to_install") in TaskSection(updateCache)
    ensures Loop("users_to_create") in TaskSection(updateCache)
    ensures Loop("services_to_enable") in TaskSection(updateCache)
  {
    var a := CacheTask(updateCache);
    assert TaskSection(updateCache) == a + InstallTask + UsersTask + ServicesTask + (FirewallTask + Handlers);
    assert InstallTask[4] == Loop("packages_to_install");
    assert UsersTask[6] == Loop("users_to_create");
    assert ServicesTask[5] == Loop("services_to_enable");
  }

  /**
   * The task section does not depend on the lists, the host group, the name
   * or `become`: two configurations that agree on `updateCache` have the same
   * tasks, which reach the lists only through their `loop` lines and hold no
   * list items.
   */
  lemma TasksIndependentOfLists(c: PlaybookConfig, d: PlaybookConfig)
    requires SingleLineFields(c) && SingleLineFields(d) && c.updateCache == d.updateCache
    ensures After(Lines(GeneratePlaybook(c)), TasksKey) == After(Lines(GeneratePlaybook(d)), TasksKey)
    ensures Loop("packages_to_install") in After(Lines(GeneratePlaybook(c)), TasksKey)
    ensures Loop("users_to_create") in After(Lines(GeneratePlaybook(c)), TasksKey)
    ensures Loop("services_to_enable") in After(Lines(GeneratePlaybook(c)), TasksKey)
    ensures ListItems(After(Lines(GeneratePlaybook(c)), TasksKey)) == []
  {
    PlaybookDocumentLines(c);
    PlaybookDocumentLines(d);
    TaskSectionChunk(c.updateCache);
    NoItems(TaskSection(c.updateCache));
    LoopsInTasks(c.updateCache);
  }

  lemma ItemsOfParts(c: PlaybookConfig)
    ensures ListItems(Front(c)) == []
    ensures ListItems(PackagesPart(c)) == c.packages
    ensures ListItems(ServicesPart(c)) == c.services
    ensures ListItems(UsersPart(c)) == c.users
    ensures ListItems([TasksKey] + TaskSection(c.updateCache)) == []
  {
    FrontItems(c);
    PackagesItems(c);
    BlockItems([ServicesKey], c.services, ["    "]);
    BlockItems([UsersKey], c.users, [""]);
    TasksItems(c.updateCache);
  }

  lemma FrontItems(c: PlaybookConfig)
    ensures ListItems(Front(c)) == []
  {
    FrontNotAt(c, 6, '-');
    NoItems(Front(c));
  }

  lemma PackagesItems(c: PlaybookConfig)
    ensures ListItems(PackagesPart(c)) == c.packages
  {
    BlockItems([], c.packages, ["    "]);
    assert [] + ListLines(c.packages) + ["    "] == PackagesPart(c);
  }

  lemma TasksItems(updateCache: bool)
    ensures ListItems([TasksKey] + TaskSection(updateCache)) == []
  {
    TasksPartChunk(updateCache);
    NoItems([TasksKey] + TaskSection(updateCache));
  }

  /**
   * The vars section lists one item line per element: the packages, then the
   * services, then the users, each in order and with duplicates kept.
   */
  lemma VarsItems(c: PlaybookConfig)
    requires SingleLineFields(c)
    ensures ListItems(Lines(GeneratePlaybook(c))) == c.packages + c.services + c.users
  {
    PlaybookDocumentLines(c);
    ItemsOfParts(c);
    var f, p, s, u, t := Front(c), PackagesPart(c), ServicesPart(c), UsersPart(c), [TasksKey] + TaskSection(c.updateCache);
    ListItemsAppend(f, p);
    ListItemsAppend(f + p, s);
    ListItemsAppend(f + p + s, u);
    ListItemsAppend(f + p + s + u, t);
  }

  lemma ServicesKeyAbsent(c: PlaybookConfig)
    ensures ServicesKey !in Front(c) + PackagesPart(c)
  {
    FrontNotAt(c, 7, 'v');
    PackagesNotAt(c, 7, 'v');
    NotAtAppend(Front(c), PackagesPart(c), 7, 'v');
    NotAtAbsent(Front(c) + PackagesPart(c), ServicesKey, 7, 'v');
  }

  lemma UsersKeyAbsent(c: PlaybookConfig)
    ensures UsersKey !in Front(c) + PackagesPart(c) + ServicesPart(c)
  {
    FrontNotAt(c, 4, 'u');
    PackagesNotAt(c, 4, 'u');
    ServicesNotAt(c, 4, 'u');
    NotAtAppend(Front(c), PackagesPart(c), 4, 'u');
    NotAtAppend(Front(c) + PackagesPart(c), ServicesPart(c), 4, 'u');
    NotAtAbsent(Front(c) + PackagesPart(c) + ServicesPart(c), UsersKey, 4, 'u');
  }

  lemma MarkerInThird(a: seq<string>, b: seq<string>, m: string, x: seq<string>, d: seq<string>, e: seq<string>)
    requires m !in a + b
    ensures After(a + b + ([m] + x) + d + e, m) == x + d + e
  {
    assert a + b + ([m] + x) + d + e == (a + b) + [m] + (x + d + e);
    AfterMarkerLine(a + b, m, x + d + e);
  }

  lemma MarkerInFourth(a: seq<string>, b: seq<string>, c: seq<string>, m: string, x: seq<string>, e: seq<string>)
    requires m !in a + b + c
    ensures After(a + b + c + ([m] + x) + e, m) == x + e
  {
    assert a + b + c + ([m] + x) + e == (a + b + c) + [m] + (x + e);
    AfterMarkerLine(a + b + c, m, x + e);
  }

  lemma ThreeItems(a: seq<string>, b: seq<string>, c: seq<string>)
    ensures ListItems(a + b + c) == ListItems(a) + ListItems(b) + ListItems(c)
  {
    ListItemsAppend(a, b);
    ListItemsAppend(a + b, c);
  }

  /** Below `    services_to_enable:` come the services, then the users. */
  lemma ServicesItems(c: PlaybookConfig)
    requires SingleLineFields(c)
    ensures ListItems(After(Lines(GeneratePlaybook(c)), ServicesKey)) == c.services + c.users
  {
    PlaybookDocumentLines(c);
    ServicesKeyAbsent(c);
    var x := ListLines(c.services) + ["    "];
    var t := [TasksKey] + TaskSection(c.updateCache);
    assert ServicesPart(c) == [ServicesKey] + x;
    MarkerInThird(Front(c), PackagesPart(c), ServicesKey, x, UsersPart(c), t);
    BlockItems([], c.services, ["    "]);
    assert [] + ListLines(c.services) + ["    "] == x;
    ItemsOfParts(c);
    ThreeItems(x, UsersPart(c), t);
  }

  /** Below `    users_to_create:` come the users alone. */
  lemma UsersItems(c: PlaybookConfig)
    requires SingleLineFields(c)
    ensures ListItems(After(Lines(GeneratePlaybook(c)), UsersKey)) == c.users
  {
    PlaybookDocumentLines(c);
    UsersKeyAbsent(c);
    var x := ListLines(c.users) + [""];
    var t := [TasksKey] + TaskSection(c.updateCache);
    assert UsersPart(c) == [UsersKey] + x;
    MarkerInFourth(Front(c), PackagesPart(c), ServicesPart(c), UsersKey, x, t);
    BlockItems([], c.users, [""]);
    assert [] + ListLines(c.users) + [""] == x;
    ItemsOfParts(c);
    ListItemsAppend(x, t);
  }

  /** No line after the `become` slot has a `b` at position 2. */
  lemma BecomeRestNotAt(c: PlaybookConfig)
    ensures NotAt(VarsLines + PackagesPart(c) + ServicesPart(c) + UsersPart(c) + ([TasksKey] + TaskSection(c.updateCache)), 2, 'b')
  {
    PackagesNotAt(c, 2, 'b');
    ServicesNotAt(c, 2, 'b');
    UsersNotAt(c, 2, 'b');
    TasksPartChunk(c.updateCache);
    NotAtFour(VarsLines, PackagesPart(c), ServicesPart(c), UsersPart(c), 2, 'b');
    NotAtAppend(VarsLines + PackagesPart(c) + ServicesPart(c) + UsersPart(c), [TasksKey] + TaskSection(c.updateCache), 2, 'b');
  }

  lemma GroupAfter(h: seq<string>, x: string, v: seq<string>, a: seq<string>, b: seq<string>, d: seq<string>, t: seq<string>)
    ensures (h + [x] + v) + a + b + d + t == h + [x] + (v + a + b + d + t)
  {
  }

  /** A line absent from both sides of `x` occurs exactly where `x` does. */
  lemma OnlyBetween(h: seq<string>, x: string, rest: seq<string>, y: string)
    requires y !in h && y !in rest
    ensures (h + [x] + rest)[|h|] == x
    ensures y in h + [x] + rest <==> y == x
  {
  }

  lemma BecomeInLines(c: PlaybookConfig)
    ensures |PlaybookLines(c)| > 3
    ensures PlaybookLines(c)[3] == BecomeLine(c.become)
    ensures "  become: yes" in PlaybookLines(c) <==> BecomeLine(c.become) == "  become: yes"
    ensures "  become: no" !in PlaybookLines(c)
  {
    var rest := VarsLines + PackagesPart(c) + ServicesPart(c) + UsersPart(c) + ([TasksKey] + TaskSection(c.updateCache));
    BecomeRestNotAt(c);
    GroupAfter(HeadLines(c), BecomeLine(c.become), VarsLines, PackagesPart(c), ServicesPart(c), UsersPart(c),
               [TasksKey] + TaskSection(c.updateCache));
    assert NotAt(HeadLines(c), 2, 'b');
    NotAtAbsent(HeadLines(c), "  become: yes", 2, 'b');
    NotAtAbsent(rest, "  become: yes", 2, 'b');
    NotAtAbsent(HeadLines(c), "  become: no", 2, 'b');
    NotAtAbsent(rest, "  become: no", 2, 'b');
    OnlyBetween(HeadLines(c), BecomeLine(c.become), rest, "  become: yes");
    OnlyBetween(HeadLines(c), BecomeLine(c.become), rest, "  become: no");
  }

  /**
   * `become: yes` is the fourth line exactly when `become` is set, it appears
   * nowhere else, and `become: no` never appears.
   */
  lemma BecomeIffSet(c: PlaybookConfig)
    requires SingleLineFields(c)
    ensures |Lines(GeneratePlaybook(c))| > 3
    ensures Lines(GeneratePlaybook(c))[3] == if c.become then "  become: yes" else "  "
    ensures "  become: yes" in Lines(GeneratePlaybook(c)) <==> c.become
    ensures "  become: no" !in Lines(GeneratePlaybook(c))
  {
    PlaybookDocumentLines(c);
    BecomeInLines(c);
    BecomeLineIs(c.become);
  }

  lemma BecomeLineIs(become: bool)
    ensures BecomeLine(become) == if become then "  become: yes" else "  "
    ensures BecomeLine(become) == "  become: yes" <==> become
  {
  }

  lemma CacheNameAbsent(c: PlaybookConfig)
    ensures CacheName !in Preamble(c) + [TasksKey]
  {
    FrontNotAt(c, 4, '-');
    PackagesNotAt(c, 4, '-');
    ServicesNotAt(c, 4, '-');
    UsersNotAt(c, 4, '-');
    NotAtFour(Front(c), PackagesPart(c), ServicesPart(c), UsersPart(c), 4, '-');
    NotAtAppend(Preamble(c), [TasksKey], 4, '-');
    NotAtAbsent(Preamble(c) + [TasksKey], CacheName, 4, '-');
  }

  /** What follows the first copy of `m` when it comes right after the key line `k`. */
  lemma MarkerAfterKey(a: seq<string>, k: string, m: string, r: seq<string>)
    requires m !in a + [k]
    ensures After(a + ([k] + ([m] + r)), m) == r
  {
    assert a + ([k] + ([m] + r)) == (a + [k]) + [m] + r;
    AfterMarkerLine(a + [k], m, r);
  }

  /** The tasks that follow the cache task. */
  const LaterTasks: seq<string> := InstallTask + UsersTask + ServicesTask + FirewallTask + Handlers

  lemma AfterCacheName(c: PlaybookConfig)
    requires SingleLineFields(c)
    ensures After(Lines(GeneratePlaybook(c)), CacheName)
            == CacheBody(c.updateCache) + [WhenDebian, "      "] + LaterTasks
  {
    PlaybookDocumentLines(c);
    CacheNameAbsent(c);
    var r := CacheBody(c.updateCache) + [WhenDebian, "      "] + LaterTasks;
    CacheFirst(c.updateCache);
    assert PlaybookLines(c) == Preamble(c) + ([TasksKey] + TaskSection(c.updateCache));
    MarkerAfterKey(Preamble(c), TasksKey, CacheName, r);
  }

  lemma CacheFirst(updateCache: bool)
    ensures TaskSection(updateCache) == [CacheName] + (CacheBody(updateCache) + [WhenDebian, "      "] + LaterTasks)
  {
    SplitOffFirst(CacheTask(updateCache), InstallTask, UsersTask, ServicesTask, FirewallTask, Handlers);
    SplitOffHead([CacheName], CacheBody(updateCache) + [WhenDebian, "      "], LaterTasks);
  }

  lemma SplitOffFirst(a: seq<string>, b: seq<string>, c: seq<string>, d: seq<string>, e: seq<string>, f: seq<string>)
    ensures a + b + c + d + e + f == a + (b + c + d + e + f)
  {
  }

  lemma SplitOffHead(a: seq<string>, b: seq<string>, c: seq<string>)
    ensures a + b + c == a + (b + c)
  {
  }

  lemma CacheHead(updateCache: bool, r: seq<string>)
    ensures var body := CacheBody(updateCache) + [WhenDebian, "      "] + r;
      if updateCache then
        |body| >= 4 && body[..4] == ["      apt:", "        update_cache: yes", "        cache_valid_time: 3600", WhenDebian]
      else
        |body| >= 2 && body[..2] == ["      # Skipped", WhenDebian]
  {
  }

  /**
   * The cache task is the `apt` update block when `updateCache` is set and
   * the `# Skipped` placeholder otherwise, followed in both cases by the same
   * Debian guard.
   */
  lemma CacheTaskBody(c: PlaybookConfig)
    requires SingleLineFields(c)
    ensures var body := After(Lines(GeneratePlaybook(c)), CacheName);
      if c.updateCache then
        |body| >= 4 && body[..4] == ["      apt:", "        update_cache: yes", "        cache_valid_time: 3600", WhenDebian]
      else
        |body| >= 2 && body[..2] == ["      # Skipped", WhenDebian]
  {
    AfterCacheName(c);
    CacheHead(c.updateCache, LaterTasks);
  }

  /** The firewall task and both handlers close every playbook. */
  lemma FirewallAndHandlersLast(c: PlaybookConfig)
    requires SingleLineFields(c)
    ensures |Lines(GeneratePlaybook(c))| >= |FirewallTask + Handlers|
    ensures Lines(GeneratePlaybook(c))[|Lines(GeneratePlaybook(c))| - |FirewallTask + Handlers|..]
            == FirewallTask + Handlers
  {
    PlaybookDocumentLines(c);
    var early := CacheTask(c.updateCache) + InstallTask + UsersTask + ServicesTask;
    assert TaskSection(c.updateCache) == early + (FirewallTask + Handlers);
    assert PlaybookLines(c) == Preamble(c) + ([TasksKey] + TaskSection(c.updateCache));
    Regroup(Preamble(c), TasksKey, early, FirewallTask + Handlers);
    SuffixOfAppend(Preamble(c) + [TasksKey] + early, FirewallTask + Handlers);
  }

  lemma Regroup(p: seq<string>, k: string, a: seq<string>, b: seq<string>)
    ensures p + ([k] + (a + b)) == (p + [k] + a) + b
  {
  }

  lemma SuffixOfAppend(a: seq<string>, b: seq<string>)
    ensures (a + b)[|a + b| - |b|..] == b
  {
  }

  // ---------------------------------------------------------------------------
  // The dialog's edits

  /** The dialog's state and the handlers that replace its lists. */
  class PlaybookEditor {
    var config: PlaybookConfig

    constructor ()
      ensures config == DefaultConfig()
    {
      config := DefaultConfig();
    }

    /**
     * `handlePackageChange`: checking appends the package at the end,
     * unchecking removes every copy; nothing else changes.
     */
    method ChangePackage(pkg: string, checked: bool)
      modifies this
      ensures config == old(config).(packages := Toggle(old(config).packages, pkg, checked))
      ensures checked ==> config.packages == old(config).packages + [pkg]
      ensures !checked ==> pkg !in config.packages
      ensures SingleLineFields(old(config)) && '\n' !in pkg ==> SingleLineFields(config)
    {
      if SingleLines(config.packages) && '\n' !in pkg {
        ToggleSingleLines(config.packages, pkg, checked);
      }
      config := config.(packages := Toggle(config.packages, pkg, checked));
    }

    /**
     * `handleServiceChange`: checking appends the service at the end,
     * unchecking removes every copy; nothing else changes.
     */
    method ChangeService(svc: string, checked: bool)
      modifies this
      ensures config == old(config).(services := Toggle(old(config).services, svc, checked))
      ensures checked ==> config.services == old(config).services + [svc]
      ensures !checked ==> svc !in config.services
      ensures SingleLineFields(old(config)) && '\n' !in svc ==> SingleLineFields(config)
    {
      if SingleLines(config.services) && '\n' !in svc {
        ToggleSingleLines(config.services, svc, checked);
      }
      config := config.(services := Toggle(config.services, svc, checked));
    }

    /**
     * The users input: the text is split on commas, trimmed and emptied
     * pieces dropped; nothing else changes.
     */
    method EditUsers(text: string)
      modifies this
      ensures config == old(config).(users := ParseCommaList(text))
      ensures IsListWords(config.users)
      ensures SingleLineFields(old(config)) && '\n' !in text ==> SingleLineFields(config)
    {
      if '\n' !in text {
        ParseCommaListSingleLine(text);
      }
      config := config.(users := ParseCommaList(text));
    }
  }
}
