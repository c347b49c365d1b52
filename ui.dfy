/** Values the front-end components hand to the toast notifier. */
module Ui {
  /** A toast: its title, its description and whether it uses the destructive variant. */
  datatype Toast = Toast(title: string, description: string, destructive: bool)
}
