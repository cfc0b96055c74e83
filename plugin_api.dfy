/** The plugin-facing vocabulary: processing categories and UI extension sites. */
module PluginApi {

  /** A processing category: an interface derived from IInterceptor.
      The repository defines exactly one, IPreprocessingInterceptor. */
  datatype Category = Preprocessing

  /** Where a plugin may insert UI items. */
  datatype UIExtensionSite = Options

  /** A menu command a plugin installs at a site of the host. */
  datatype MenuItem = MenuItem(site: UIExtensionSite, text: string)
}
