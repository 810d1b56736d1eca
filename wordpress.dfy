/** The part of the WordPress host that the plugin's core reads and writes:
    one option store per blog (site) of a multisite network, the current blog
    and the stack that switch_to_blog / restore_current_blog maintain, the
    current user's capabilities, and which plugins are active. */
module WordPress {
  import opened Php

  /** The options of one blog: option name to stored array. */
  type OptionStore = map<string, PhpArray>

  /** The effect of "if get_option(name) === false then update_option(name, value)":
      the option is created when absent and an existing one is never overwritten. */
  function InsertIfAbsent(store: OptionStore, name: string, value: PhpArray): (r: OptionStore)
    ensures r.Keys == store.Keys + {name}
    ensures forall k :: k in store ==> r[k] == store[k]
    ensures name !in store ==> r[name] == value
  {
    if name in store then store else store[name := value]
  }

  /** A second insertion of the same option, with any value, changes nothing. */
  lemma InsertIfAbsentIdempotent(store: OptionStore, name: string, value: PhpArray, again: PhpArray)
    ensures InsertIfAbsent(InsertIfAbsent(store, name, value), name, again) == InsertIfAbsent(store, name, value)
  {
  }

  class Host {
    /** Option store of every blog that has one; a blog without an entry has no options. */
    var blogOptions: map<int, OptionStore>
    /** The blog whose options get_option / update_option address. */
    var currentBlog: int
    /** Blogs saved by switch_to_blog, to be popped by restore_current_blog. */
    var switchedStack: seq<int>
    /** Every blog switch_to_blog has switched to, in order. */
    ghost var switchLog: seq<int>
    /** Plugin files passed to deactivate_plugins. */
    var deactivated: set<string>

    /** is_multisite(). */
    const multisite: bool
    /** get_sites(['fields' => 'ids']). */
    const siteIds: seq<int>
    /** get_main_site_id(). */
    const mainSiteId: int
    /** The current user's capabilities, as current_user_can sees them. */
    const capabilities: set<string>
    /** Plugin files active on each blog. */
    const activePlugins: map<int, set<string>>
    /** Plugin files active for the whole network. */
    const networkActivePlugins: set<string>

    constructor(multisite: bool, siteIds: seq<int>, mainSiteId: int, currentBlog: int,
                blogOptions: map<int, OptionStore>, capabilities: set<string>,
                activePlugins: map<int, set<string>>, networkActivePlugins: set<string>)
      ensures this.multisite == multisite && this.siteIds == siteIds && this.mainSiteId == mainSiteId
      ensures this.currentBlog == currentBlog && this.blogOptions == blogOptions
      ensures this.capabilities == capabilities && this.activePlugins == activePlugins
      ensures this.networkActivePlugins == networkActivePlugins
      ensures switchedStack == [] && switchLog == [] && deactivated == {}
    {
      this.multisite := multisite;
      this.siteIds := siteIds;
      this.mainSiteId := mainSiteId;
      this.currentBlog := currentBlog;
      this.blogOptions := blogOptions;
      this.capabilities := capabilities;
      this.activePlugins := activePlugins;
      this.networkActivePlugins := networkActivePlugins;
      switchedStack := [];
      switchLog := [];
      deactivated := {};
    }

    function OptionsOf(blog: int): OptionStore
      reads this
    {
      if blog in blogOptions then blogOptions[blog] else map[]
    }

    /** The option store of the current blog. */
    function Options(): OptionStore
      reads this
    {
      OptionsOf(currentBlog)
    }

    /** get_option(name), None standing for PHP's false. */
    function GetOption(name: string): (r: Option<PhpArray>)
      reads this
      ensures r.Some? <==> name in Options()
      ensures r.Some? ==> r.value == Options()[name]
    {
      if name in Options() then Some(Options()[name]) else None
    }

    /** update_option(name, value) on the current blog. */
    method UpdateOption(name: string, value: PhpArray)
      modifies this`blogOptions
      ensures blogOptions == old(blogOptions)[currentBlog := old(Options())[name := value]]
    {
      blogOptions := blogOptions[currentBlog := Options()[name := value]];
    }

    /** switch_to_blog(id): saves the current blog and makes id current. */
    method SwitchToBlog(id: int)
      modifies this`currentBlog, this`switchedStack, this`switchLog
      ensures switchedStack == old(switchedStack) + [old(currentBlog)]
      ensures currentBlog == id
      ensures switchLog == old(switchLog) + [id]
    {
      switchedStack := switchedStack + [currentBlog];
      currentBlog := id;
      switchLog := switchLog + [id];
    }

    /** restore_current_blog(): pops the saved blog; false, changing nothing,
        when nothing was saved. */
    method RestoreCurrentBlog() returns (restored: bool)
      modifies this`currentBlog, this`switchedStack
      ensures restored <==> old(switchedStack) != []
      ensures restored ==> currentBlog == old(switchedStack)[|old(switchedStack)| - 1]
      ensures restored ==> switchedStack == old(switchedStack)[..|old(switchedStack)| - 1]
      ensures !restored ==> currentBlog == old(currentBlog) && switchedStack == old(switchedStack)
    {
      if switchedStack == [] {
        return false;
      }
      currentBlog := switchedStack[|switchedStack| - 1];
      switchedStack := switchedStack[..|switchedStack| - 1];
      return true;
    }

    /** deactivate_plugins(file). */
    method DeactivatePlugins(file: string)
      modifies this`deactivated
      ensures deactivated == old(deactivated) + {file}
    {
      deactivated := deactivated + {file};
    }

    /** current_user_can(capability). */
    predicate CurrentUserCan(capability: string)
    {
      capability in capabilities
    }

    /** is_plugin_active(file) as seen from the given blog. */
    predicate IsPluginActiveOn(blog: int, file: string)
    {
      IsPluginActiveForNetwork(file) || (blog in activePlugins && file in activePlugins[blog])
    }

    /** is_plugin_active_for_network(file): always false outside multisite. */
    predicate IsPluginActiveForNetwork(file: string)
    {
      multisite && file in networkActivePlugins
    }
  }
}
