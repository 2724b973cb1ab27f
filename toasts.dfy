/** A toast notification the dashboard raises: its title, its text and whether it uses the destructive style. */
module Toasts {

  datatype Toast = Toast(title: string, description: string, destructive: bool)
}
