// The mod loader of an instance in the current Go launcher
// (pkg/launcher/launcher.go): a free-form name with five known values.
module LauncherLoader {
  type Loader = string

  const LoaderVanilla: Loader := "vanilla"
  const LoaderFabric: Loader := "fabric"
  const LoaderQuilt: Loader := "quilt"
  const LoaderNeoForge: Loader := "neoforge"
  const LoaderForge: Loader := "forge"
}
