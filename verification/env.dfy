/**
 * The process configuration the core reads: the bot token, the Telegram id of
 * the super admin, and whether the test-login bypass is enabled.
 */
module Env {
  datatype Config = Config(botToken: string, superAdminId: string, allowTestAuth: bool)
}
