/** The `remote.build.*` settings of the ssh/rsync build transport: the values the pipeline
    reads, their defaults, and the two guards it uses. */
module RemoteBuildProperties {
  import opened Common

  datatype Props = Props(
    enabled: bool,
    host: Option<string>,
    user: Option<string>,
    sshKey: Option<string>,            // identity file, optional
    sshCommand: string,
    rsyncCommand: string,
    workDir: string,                   // remote working root
    npmCommand: string,
    nodeOptions: Option<string>,       // e.g. --max_old_space_size=512
    syncTimeoutSeconds: int,
    buildTimeoutSeconds: int,
    fetchTimeoutSeconds: int,
    cleanupTimeoutSeconds: int,
    extraRsyncFlags: Option<string>,
    keepRemoteWorkspace: bool)
  {
    /** An identity file is configured: non-null and not blank. */
    predicate HasSshKey()
      ensures HasSshKey() ==> sshKey.Some? && |sshKey.value| > 0
    {
      sshKey.Some? && !IsJavaBlank(sshKey.value)
    }

    /** Remote building is switched on and both the host and the user are given. */
    predicate IsConfigReady()
      ensures IsConfigReady() ==> enabled && host.Some? && |host.value| > 0 && user.Some? && |user.value| > 0
    {
      enabled && host.Some? && !IsJavaBlank(host.value) && user.Some? && !IsJavaBlank(user.value)
    }
  }

  /** The settings when nothing is configured. */
  function Defaults(): (p: Props)
    ensures !p.enabled && !p.IsConfigReady() && !p.HasSshKey()
    ensures p.syncTimeoutSeconds > 0 && p.buildTimeoutSeconds > 0 && p.fetchTimeoutSeconds > 0 && p.cleanupTimeoutSeconds > 0
  {
    Props(
      enabled := false, host := None, user := None, sshKey := None,
      sshCommand := "ssh", rsyncCommand := "rsync", workDir := "/tmp/remote-code-build",
      npmCommand := "npm", nodeOptions := None,
      syncTimeoutSeconds := 180, buildTimeoutSeconds := 900,
      fetchTimeoutSeconds := 180, cleanupTimeoutSeconds := 60,
      extraRsyncFlags := None, keepRemoteWorkspace := false)
  }

  /** A ready configuration is an enabled one, and it names a host and a user that each hold
      at least one non-whitespace character. */
  lemma ConfigReadyMeaning(p: Props)
    ensures p.IsConfigReady() ==> p.enabled
    ensures p.IsConfigReady() <==>
      p.enabled
      && p.host.Some? && (exists i | 0 <= i < |p.host.value| :: !IsJavaWhitespace(p.host.value[i]))
      && p.user.Some? && (exists i | 0 <= i < |p.user.value| :: !IsJavaWhitespace(p.user.value[i]))
  {
  }

  /** A key counts only if it holds a non-whitespace character. */
  lemma HasSshKeyMeaning(p: Props)
    ensures p.HasSshKey() <==>
      p.sshKey.Some? && exists i | 0 <= i < |p.sshKey.value| :: !IsJavaWhitespace(p.sshKey.value[i])
  {
  }

  /** Out of the box remote building is not ready, uses no key, keeps nothing on the remote
      host, and every stage has a positive time limit. */
  lemma DefaultsMeaning()
    ensures !Defaults().IsConfigReady() && !Defaults().HasSshKey()
    ensures !Defaults().keepRemoteWorkspace
    ensures Defaults().syncTimeoutSeconds > 0 && Defaults().buildTimeoutSeconds > 0
    ensures Defaults().fetchTimeoutSeconds > 0 && Defaults().cleanupTimeoutSeconds > 0
    ensures Defaults().buildTimeoutSeconds > Defaults().syncTimeoutSeconds
  {
  }
}
