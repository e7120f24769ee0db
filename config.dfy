/**
 * The fixed names of the gocms layout (config/config.go).
 * The platform-specific binary name and download path live in a file that is
 * not part of this model, so they are carried as a `Platform` value.
 */
module Config {
  const BINARY_PROTOCOL := "http"
  const BINARY_HOST := "release"
  const BINARY_DOMAIN := "gocms.io"
  const BINARY_ARCHIVE := "gocms.zip"
  const BINARY_DEFAULT_RELEASE := "alpha-release"
  const BINARY_DEFAULT_VERSION := "current"

  const CONTENT_DIR := "content"
  const ENV_FILE := ".env"
  const DOCS_DIR := "docs"
  const PLUGINS_DIR := "plugins"
  const TEMPLATES_DIR := "templates"
  const THEMES_DIR := "themes"
  const THEMES_DEFAULT_DIR := "default"
  const GOCMS_ADMIN_DIR := "gocms"
  const BACKUP_DIR := ".bk"
  const STAGING_DIR := ".staging"
  const PLUGIN_MANIFEST := "manifest.json"

  /** BINARY_OS_PATH and BINARY_FILE, which depend on the build target. */
  datatype Platform = Platform(binaryOsPath: string, binaryFile: string)

  /**
   * The binary name is one path component that does not collide with the
   * other top-level entries of an installation.
   */
  predicate ValidPlatform(p: Platform)
  {
    && p.binaryFile != "" && p.binaryFile != "." && p.binaryFile != ".."
    && '/' !in p.binaryFile
    && p.binaryFile != CONTENT_DIR && p.binaryFile != ENV_FILE
    && p.binaryFile != BACKUP_DIR && p.binaryFile != STAGING_DIR
  }
}
