/** What the plugin does when it is activated: tag its configuration with the
    activation mode, store it once per install (never overwriting), visit every
    site of a network activation, and check the plugins it depends on.
    wp_die becomes the Died outcome: the request ends there. */
module Activation {
  import opened Php
  import opened WordPress

  /** The plugin's main file, as is_plugin_active_for_network names it. */
  const PluginMainFile := "plugin-name/plugin-name.php"
  /** plugin_basename(__FILE__) evaluated in Includes/Activator.php: the file
      deactivate_plugins is given. */
  const ActivatorFile := "plugin-name/Includes/Activator.php"
  const AuthorizationMessage := "You don't have proper authorization to activate a plugin!"

  datatype Outcome = Completed | Died(message: string)

  /** The capability activation asks of the current user. */
  function RequiredCapability(networkWide: bool): string
  {
    if networkWide then "manage_network_plugins" else "activate_plugins"
  }

  /** $configuration['network-wide'] = $networkWide */
  function Tagged(configuration: PhpArray, networkWide: bool): (tagged: PhpArray)
    ensures tagged.Keys == configuration.Keys + {"network-wide"}
    ensures tagged["network-wide"] == Bool(networkWide)
    ensures forall k :: k in configuration && k != "network-wide" ==> tagged[k] == configuration[k]
  {
    configuration["network-wide" := Bool(networkWide)]
  }

  class Activator {
    /** REQUIRED_PLUGINS: plugin name and plugin file of each dependency. */
    const requiredPlugins: seq<(string, string)>

    constructor()
      ensures requiredPlugins == []
    {
      requiredPlugins := [];
    }

    /** Every required plugin is active as seen from the blog. */
    predicate DependenciesMet(host: Host, blog: int)
    {
      forall i :: 0 <= i < |requiredPlugins| ==> host.IsPluginActiveOn(blog, requiredPlugins[i].1)
    }

    /** The per-site task of activation; empty in the plugin. */
    method OnActivation()
    {
    }

    /** checkDependencies: dies, after deactivation, at the first required plugin
        that is not active on the current blog. The source picks its message by an
        undefined variable, which PHP reads as null, so only the single-site
        message is ever produced; networkWide and blogId feed the other one. */
    method CheckDependencies(host: Host, networkWide: bool, blogId: int) returns (outcome: Outcome)
      modifies host`deactivated
      ensures outcome.Completed? <==> DependenciesMet(host, host.currentBlog)
      ensures outcome.Completed? ==> host.deactivated == old(host.deactivated)
      ensures outcome.Died? ==> host.deactivated == old(host.deactivated) + {ActivatorFile}
      ensures outcome.Died? ==>
                exists i :: 0 <= i < |requiredPlugins|
                  && !host.IsPluginActiveOn(host.currentBlog, requiredPlugins[i].1)
                  && (forall j :: 0 <= j < i ==> host.IsPluginActiveOn(host.currentBlog, requiredPlugins[j].1))
                  && outcome.message == "This plugin requires " + requiredPlugins[i].0 + " plugin to be active!"
      ensures requiredPlugins == [] ==> outcome == Completed && host.deactivated == old(host.deactivated)
    {
      var i := 0;
      while i < |requiredPlugins|
        invariant 0 <= i <= |requiredPlugins|
        invariant forall j :: 0 <= j < i ==> host.IsPluginActiveOn(host.currentBlog, requiredPlugins[j].1)
        invariant host.deactivated == old(host.deactivated)
      {
        var (pluginName, pluginFile) := requiredPlugins[i];
        if !host.IsPluginActiveOn(host.currentBlog, pluginFile) {
          host.DeactivatePlugins(ActivatorFile);
          return Died("This plugin requires " + pluginName + " plugin to be active!");
        }
        i := i + 1;
      }
      return Completed;
    }

    /** ensureCreateConfig: stores the configuration in the current blog only when
        the option is absent. */
    method EnsureCreateConfig(host: Host, optionName: string, configuration: PhpArray)
      modifies host`blogOptions
      ensures host.blogOptions
           == old(host.blogOptions)[host.currentBlog := InsertIfAbsent(old(host.Options()), optionName, configuration)]
    {
      if host.GetOption(optionName).None? {
        host.UpdateOption(optionName, configuration);
      }
    }

    /** activate: permission check, configuration stored once, then the per-site
        work for every site (network-wide) or for this site. */
    method Activate(host: Host, networkWide: bool, configuration: PhpArray, optionName: string)
      returns (outcome: Outcome)
      modifies host
      ensures var config := Tagged(configuration, networkWide);
              var target := if networkWide || !host.multisite then old(host.currentBlog) else host.mainSiteId;
              outcome.Completed? ==>
                && host.blogOptions == old(host.blogOptions)[target := InsertIfAbsent(old(host.OptionsOf(target)), optionName, config)]
                && host.currentBlog == old(host.currentBlog)
                && host.switchedStack == old(host.switchedStack)
                && host.deactivated == old(host.deactivated)
      ensures !host.CurrentUserCan(RequiredCapability(networkWide)) ==>
                && outcome == Died(AuthorizationMessage)
                && host.deactivated == old(host.deactivated) + {ActivatorFile}
                && host.blogOptions == old(host.blogOptions)
                && host.currentBlog == old(host.currentBlog)
                && host.switchedStack == old(host.switchedStack)
                && host.switchLog == old(host.switchLog)
      ensures host.CurrentUserCan(RequiredCapability(networkWide)) && networkWide ==>
                && (outcome.Completed? <==> forall j :: 0 <= j < |host.siteIds| ==> DependenciesMet(host, host.siteIds[j]))
                && (outcome.Completed? ==> host.switchLog == old(host.switchLog) + host.siteIds)
      ensures host.CurrentUserCan(RequiredCapability(networkWide)) && !networkWide ==>
                && (outcome.Completed? <==> DependenciesMet(host, old(host.currentBlog)))
                && host.switchLog == old(host.switchLog) + (if host.multisite then [host.mainSiteId] else [])
      ensures host.CurrentUserCan(RequiredCapability(networkWide)) && requiredPlugins == [] ==> outcome == Completed
    {
      var config := Tagged(configuration, networkWide);
      if networkWide {
        if !host.CurrentUserCan("manage_network_plugins") {
          host.DeactivatePlugins(ActivatorFile);
          return Died(AuthorizationMessage);
        }
        EnsureCreateConfig(host, optionName, config);
        ghost var stored := host.blogOptions;
        var i := 0;
        while i < |host.siteIds|
          invariant 0 <= i <= |host.siteIds|
          invariant host.blogOptions == stored
          invariant host.currentBlog == old(host.currentBlog)
          invariant host.switchedStack == old(host.switchedStack)
          invariant host.deactivated == old(host.deactivated)
          invariant host.switchLog == old(host.switchLog) + host.siteIds[..i]
          invariant forall j :: 0 <= j < i ==> DependenciesMet(host, host.siteIds[j])
        {
          var blogId := host.siteIds[i];
          host.SwitchToBlog(blogId);
          outcome := CheckDependencies(host, true, blogId);
          if outcome.Died? {
            return;
          }
          OnActivation();
          var _ := host.RestoreCurrentBlog();
          i := i + 1;
        }
        assert host.siteIds[..i] == host.siteIds;
        return Completed;
      } else {
        if !host.CurrentUserCan("activate_plugins") {
          host.DeactivatePlugins(ActivatorFile);
          return Died(AuthorizationMessage);
        }
        if host.multisite {
          host.SwitchToBlog(host.mainSiteId);
          EnsureCreateConfig(host, optionName, config);
          var _ := host.RestoreCurrentBlog();
        } else {
          EnsureCreateConfig(host, optionName, config);
        }
        outcome := CheckDependencies(host, false, 0);
        if outcome.Died? {
          return;
        }
        OnActivation();
        return Completed;
      }
    }

    /** activateNewSite: a site created while the plugin is network-active gets
        the per-site work, between a switch and its restore; otherwise nothing
        happens. No option is written either way. */
    method ActivateNewSite(host: Host, blogId: int) returns (outcome: Outcome)
      modifies host
      ensures !host.IsPluginActiveForNetwork(PluginMainFile) ==> outcome == Completed && unchanged(host)
      ensures host.blogOptions == old(host.blogOptions)
      ensures host.IsPluginActiveForNetwork(PluginMainFile) ==>
                && (outcome.Completed? <==> DependenciesMet(host, blogId))
                && host.switchLog == old(host.switchLog) + [blogId]
      ensures outcome.Completed? ==>
                && host.currentBlog == old(host.currentBlog)
                && host.switchedStack == old(host.switchedStack)
                && host.deactivated == old(host.deactivated)
      ensures requiredPlugins == [] ==> outcome == Completed
    {
      if host.IsPluginActiveForNetwork(PluginMainFile) {
        host.SwitchToBlog(blogId);
        outcome := CheckDependencies(host, true, blogId);
        if outcome.Died? {
          return;
        }
        OnActivation();
        var _ := host.RestoreCurrentBlog();
      }
      return Completed;
    }
  }
}
