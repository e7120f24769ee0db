/** The decoded manifest.json of a plugin (models/plugin_models.go). */
module Models {
  datatype PluginManifestRoute = PluginManifestRoute(name: string, route: string, httpMethod: string, url: string)

  datatype PluginServices = PluginServices(routes: seq<PluginManifestRoute>, bin: string, docs: string)

  datatype PluginInterface = PluginInterface(
    public: string, publicVendor: string, publicStyle: string,
    admin: string, adminVendor: string, adminStyle: string)

  datatype PluginManifest = PluginManifest(
    id: string, version: string, build: int, name: string, description: string,
    author: string, authorUrl: string, authorEmail: string,
    services: PluginServices, interface: PluginInterface)
}
